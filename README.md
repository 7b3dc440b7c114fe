# Problem-tutor chat gateway and its pages, modelled in Dafny

This project models the chat-request handler of a coding-practice site and the
hand-written logic of the front-end pages around it.

The handler (`SolveDoubt`) does four things:

- it checks that the request carries a `messages` array;
- it normalizes every message (lower-cased role, the synonyms `model`, `bot` and
  `ai` mapped to `assistant`, anything other than `user`, `assistant` or
  `system` rejected with an error naming the raw role and the index);
- it puts one system prompt, built from the problem's title, description, test
  cases and start code, in front of the conversation and sends it to the remote
  completion provider with fixed generation parameters;
- it maps the outcome to an HTTP response: 201 with the first choice, or 429,
  500 or 400 by the error's `status`, and otherwise a generic 500 whose detail
  is shown only when `NODE_ENV` is `development`.

The front end is modelled page by page:

- `ChatAi`: the conversation buffer that feeds the handler (a greeting, then a
  user turn and a reply or apology per submit), as a class.
- `Homepage`: the problem-list filter, the difficulty counts and the badge colour.
- `AdminVideo`: the search and difficulty filters, the delete update and the
  difficulty colour, with the page state as a class.
- `AdminUpload`: the file validators, the `m:ss` duration text and the upload
  flags, as a class.
- `Signup`: the password checklist and the schema's length rules.
- `Editorial`: the player's time text and its play/mute/volume state, as a class.

Shared pieces: `Maybe` (Option and Result), `Text` (ASCII lower-casing,
`includes`, `startsWith`, `padStart`, decimal numbers and their parsing),
`Seqs` (`Array.prototype.filter` and its facts, and `Array.prototype.map`
with a callback that may throw), and `Problems` (the problem
record and the schema's difficulties).

The remote completion call is the function parameter `provider` of
`SolveDoubt.Handle`. `Exchange.call` records the call made, or `None` when no
call was made. Network outcomes on the front end (the reply, the upload
result, the delete result) are method parameters.

Three behaviours of the handler worth knowing:

- The error detail of the generic 500 is shown only when `NODE_ENV` is exactly
  `development`, not in every non-production setting.
- A message with a missing field or a rejected role is a plain `Error` without
  `status`, so it gets the generic 500, not a 400.
- Caller `system` turns pass through after the injected system message. The
  assembled prompt has one `system` message at index 0, but not necessarily
  only one.

The admin video page's drop-down offers `Easy`, `Medium` and `Hard`. The
problem schema (frontend/src/components/AdminPanel.jsx:11) admits only
lower-case difficulties. The comparison is modelled case-sensitively, as
written. `AdminVideo.CapitalisedFilterListsNothing` proves that, for
schema-valid problems, any of those filters lists nothing, and
`AdminVideo.SchemaDifficultyIsSlate` proves that every such problem gets the
default colour.

## Model

| member | source | states |
|---|---|---|
| SolveDoubt.ParseRole | backend/src/controllers/solveDoubt.js:37 | a token is accepted exactly when it is `user`, `assistant` or `system`, and the role found carries that name |
| SolveDoubt.RoleToken | backend/src/controllers/solveDoubt.js:29-34 | the token is lower-case; it differs from the lower-cased raw role only for `model`, `bot` and `ai`, which become `assistant` (the full table is `SolveDoubt.RoleMapping`) |
| SolveDoubt.MissingFieldNamesIndex | backend/src/controllers/solveDoubt.js:24-26 | the missing-field error text contains the message's index in decimal |
| SolveDoubt.InvalidRoleNamesRoleAndIndex | backend/src/controllers/solveDoubt.js:36-39 | the invalid-role error text contains the raw role and the index |
| SolveDoubt.NormalizeOne | backend/src/controllers/solveDoubt.js:22-45 | one message is accepted exactly when role and content are truthy and the lower-cased, synonym-mapped role is accepted; content is kept unchanged; a falsy field gives the missing-field error, a bad role the invalid-role error, neither has a `status` |
| Seqs.MapOrFailSucceeds | backend/src/controllers/solveDoubt.js:22-45 | `map` with a throwing callback succeeds exactly when the callback succeeds on every element at its index, and then each result element is the callback's value there |
| Seqs.MapOrFailStopsAtFirst | backend/src/controllers/solveDoubt.js:22-45 | a failing `map` fails with the callback's error on the first element it rejects, every earlier element being accepted |
| SolveDoubt.Normalize | backend/src/controllers/solveDoubt.js:22-45 | the conversation normalizes exactly when every message normalizes at its own index, then with the same length and each element that message's result; a failure is the error of the first failing message and carries no `status` |
| SolveDoubt.NormalizePreserves | backend/src/controllers/solveDoubt.js:22-45 | on success, length and order are kept, every content is unchanged and every role is the one its token names |
| SolveDoubt.NormalizeFailsAtFirstBad | backend/src/controllers/solveDoubt.js:22-26 | if message k is the first bad one, normalization fails with message k's error |
| SolveDoubt.NormalizeIdempotent | backend/src/controllers/solveDoubt.js:22-45 | normalizing an already-normalized conversation gives it back unchanged |
| SolveDoubt.RoleMapping | backend/src/controllers/solveDoubt.js:29-39 | ignoring case, `user` and `system` map to themselves, `assistant`/`model`/`bot`/`ai` to assistant, and every other token is rejected |
| SolveDoubt.SynonymReachesProvider | backend/src/controllers/solveDoubt.js:29-34 | a `MODEL` turn is sent to the provider as an assistant turn behind the system prompt |
| SolveDoubt.SystemPrompt | backend/src/controllers/solveDoubt.js:49-58 | the system text contains the title, description, test cases and start code verbatim (`undefined` for a missing one) |
| SolveDoubt.AssemblePrompt | backend/src/controllers/solveDoubt.js:48-120 | the prompt has length n+1, a system message with the filled template at index 0, and the normalized messages in order after it |
| SolveDoubt.AssembledSystemCount | backend/src/controllers/solveDoubt.js:48-120 | the prompt has exactly one more system message than the history: caller system turns are neither merged nor removed |
| SolveDoubt.MapError | backend/src/controllers/solveDoubt.js:143-169 | status 429 gives 429 with the rate-limit text, 401 gives 500 with the auth text, 400 gives 400 with the bad-request text and the error's message, anything else 500 "Internal server error" with the detail exactly in development |
| SolveDoubt.MapErrorClassifies | backend/src/controllers/solveDoubt.js:143-169 | an error response is 400, 429 or 500; it is 400 or 429 exactly for those statuses; it carries detail only for a 400 or in development |
| SolveDoubt.Respond | backend/src/controllers/solveDoubt.js:134-139 | a reply gives 201 with the first choice's content; no choice gives the `TypeError`'s generic 500; a thrown error goes to the mapper |
| SolveDoubt.Handle | backend/src/controllers/solveDoubt.js:5-170 | a call is made exactly when `messages` is an array that normalizes; an absent or non-array `messages` gives 400 "Messages array is required"; a call carries the fixed parameters and the system prompt followed by one message per input message, and the response is the mapped provider outcome; a normalization failure gives the generic 500 |
| SolveDoubt.ShapeErrorMakesNoCall | backend/src/controllers/solveDoubt.js:10-14 | an absent or non-array `messages` gives 400 "Messages array is required" and no provider call |
| SolveDoubt.EmptyConversationIsSent | backend/src/controllers/solveDoubt.js:10-132 | an empty array passes the shape check and is sent as the system prompt alone |
| SolveDoubt.BadMessageGives500 | backend/src/controllers/solveDoubt.js:22-169 | a bad message gives 500 "Internal server error" with no provider call, and the detail, naming the first bad index, appears exactly in development |
| SolveDoubt.WellFormedIsSent | backend/src/controllers/solveDoubt.js:48-132 | a well-formed conversation is sent once with the fixed parameters, as the system prompt followed by each normalized message in order, and the response is the mapped provider outcome |
| SolveDoubt.ReplyGives201 | backend/src/controllers/solveDoubt.js:134-139 | when the provider replies with a choice, the response is 201 with exactly that content and no error field |
| ChatAi.InputError | frontend/src/components/ChatAi.jsx:79-82 | the input is accepted exactly when it has at least two characters; empty gives "Message is required", one character "Too short" |
| ChatAi.ReplyEntry | frontend/src/components/ChatAi.jsx:36-45 | the appended entry is an assistant entry holding the reply, or the fixed apology when the call failed |
| ChatAi.ClientRolesAccepted | frontend/src/components/ChatAi.jsx:21-45 | every entry with a client role and non-empty content passes the backend's checks and is normalized with its role and content kept |
| ChatAi.ClientHistoryNormalizes | frontend/src/components/ChatAi.jsx:8-45 | a client history whose entries all have content normalizes in full, with its length kept |
| ChatAi.SubmittedTurnIsSent | frontend/src/components/ChatAi.jsx:19-33 | for a history of non-empty entries, a submitted turn reaches the provider: the system prompt first, then each history entry with its role and content, and last the user's text as a `user` message |
| ChatAi.EmptyReplyBlocksLaterTurns | frontend/src/components/ChatAi.jsx:36-39 | once an assistant entry with empty content (an empty first choice, backend/src/controllers/solveDoubt.js:135-138) is in the history, every later request gets the generic 500 and makes no provider call |
| ChatAi.ChatSession.constructor | frontend/src/components/ChatAi.jsx:8-10 | the history starts as exactly the assistant greeting |
| ChatAi.ChatSession.Edit | frontend/src/components/ChatAi.jsx:76-83 | typing sets the input's text |
| ChatAi.ChatSession.Submit | frontend/src/components/ChatAi.jsx:19-47 | an invalid input changes nothing but the error; a valid one sends the prior history plus the user turn (`[...messages, userMessage]`, lines 27-28), resets the input, and appends the user turn and the reply entry, keeping every earlier entry |
| ChatAi.SubmitTurn | frontend/src/components/ChatAi.jsx:19-47 | a completed turn grows the history by exactly two, keeps the earlier entries in place, and appends the user turn then an assistant entry |
| Homepage.FilteredProblems | frontend/src/pages/Homepage.jsx:47-55 | the list is an order-preserving subsequence of `problems`; a problem is kept exactly when it has the chosen difficulty and tag (unless `all`), is solved when status is `solved` (status `all` keeps all), and its lower-cased title contains the lower-cased query; its length is the number of positions whose problem is shown |
| Homepage.Shown | frontend/src/pages/Homepage.jsx:47-54 | with every filter at `all` and an empty query every problem is shown; a status other than `all` or `solved` shows none; a shown problem's lower-cased title contains the lower-cased query |
| Homepage.EmptyQueryMatches | frontend/src/pages/Homepage.jsx:52-53 | the empty query matches every title |
| Homepage.NoFilterShowsAll | frontend/src/pages/Homepage.jsx:13-55 | with every filter at `all` and an empty query, the list equals `problems` |
| Homepage.UnknownStatusShowsNothing | frontend/src/pages/Homepage.jsx:50-51 | a status other than `all` or `solved` keeps nothing |
| Homepage.ComputeStats | frontend/src/pages/Homepage.jsx:57-63 | `total` is the number of problems, `solved` the length of the solved list, `easy`, `medium` and `hard` the number of positions holding a problem of that difficulty, and the three together never exceed `total` |
| Seqs.FilterCountsPositions | frontend/src/pages/Homepage.jsx:60-62 | `filter(...).length` is the number of positions whose element the callback accepts |
| Homepage.DifficultyBadgeColor | frontend/src/pages/Homepage.jsx:290-297 | ignoring case, easy, medium and hard get success, warning and error, and anything else gets `badge-neutral` |
| Homepage.BadgeIgnoresCase | frontend/src/pages/Homepage.jsx:290-297 | a difficulty and its lower-cased form get the same badge, and every schema difficulty gets a coloured badge |
| AdminVideo.VisibleProblems | frontend/src/components/AdminVideo.jsx:36-51 | the listed problems are an order-preserving subsequence; a problem is listed exactly when the term (if any) is in its lower-cased title or tags and its difficulty equals the filter exactly (unless `All`); its length is the number of positions whose problem is visible |
| AdminVideo.NoFilterListsAll | frontend/src/components/AdminVideo.jsx:36-51 | an empty term and `All` list every problem |
| AdminVideo.CapitalisedFilterListsNothing | frontend/src/components/AdminVideo.jsx:46-48 | for problems with schema difficulties, filtering on `Easy`, `Medium` or `Hard` lists nothing |
| AdminVideo.StagesAreVisibleProblems | frontend/src/components/AdminVideo.jsx:36-51 | the search stage then the difficulty stage give exactly the visible problems |
| AdminVideo.DifficultyColor | frontend/src/components/AdminVideo.jsx:65-76 | `Easy`, `Medium` and `Hard`, case-sensitive, get green, yellow and red, and anything else the slate default |
| AdminVideo.SchemaDifficultyIsSlate | frontend/src/components/AdminVideo.jsx:65-76 | every lower-case schema difficulty gets the slate default |
| Text.OrElse | frontend/src/components/AdminVideo.jsx:60 | an absent or empty server message falls back to the fixed text ("Failed to delete video" here, "Upload failed. Please try again." in AdminUpload.jsx:57); any other message is shown as is |
| AdminVideo.DeleteRemovesExactly | frontend/src/components/AdminVideo.jsx:58 | a delete keeps exactly the problems with another `_id`, in order, and changes nothing when no problem has that id; the kept list is as long as the number of positions with another `_id` |
| AdminVideo.AdminVideoPage.constructor | frontend/src/components/AdminVideo.jsx:7-12 | the page starts empty, loading, with no error, no term and `All` |
| AdminVideo.AdminVideoPage.FilterProblems | frontend/src/components/AdminVideo.jsx:36-51 | the shown list becomes the visible problems of the current list, term and filter |
| AdminVideo.AdminVideoPage.Load | frontend/src/components/AdminVideo.jsx:22-34 | a fetched list replaces `problems`; a failure sets "Failed to fetch problems"; loading ends and the shown list is in step |
| AdminVideo.AdminVideoPage.SetSearchTerm | frontend/src/components/AdminVideo.jsx:18-20 | a new term re-runs the filter and changes nothing else |
| AdminVideo.AdminVideoPage.SetDifficultyFilter | frontend/src/components/AdminVideo.jsx:18-20 | a new filter re-runs the filter and changes nothing else |
| AdminVideo.AdminVideoPage.Delete | frontend/src/components/AdminVideo.jsx:53-63 | a successful delete removes the problems with that id and refilters; a failed one leaves `problems` unchanged and sets the error |
| AdminUpload.IsVideo | frontend/src/components/AdminUpload.jsx:113-117 | no file fails with "Please select a video file"; a file passes exactly when its MIME type starts with `video/` |
| AdminUpload.FileSize | frontend/src/components/AdminUpload.jsx:118-123 | no file passes; a file passes exactly when its size is at most 104857600 bytes |
| AdminUpload.VideoFieldError | frontend/src/components/AdminUpload.jsx:110-125 | the field is accepted exactly when a file is selected, it is a video, and it is at most 100 MiB |
| AdminUpload.FormatDuration | frontend/src/components/AdminUpload.jsx:73-77 | the text is one or more digits, a colon, and exactly two digits (read back by `AdminUpload.FormatDurationRoundTrip`) |
| AdminUpload.SecondsPadToTwoDigits | frontend/src/components/AdminUpload.jsx:75-76 | the padded seconds are two digits that read back as the seconds |
| AdminUpload.FormatDurationRoundTrip | frontend/src/components/AdminUpload.jsx:73-77 | the `m:ss` text reads back as floor(s/60) and s mod 60; the seconds are below 60 and the two parts give back s |
| AdminUpload.FormatDurationInjective | frontend/src/components/AdminUpload.jsx:73-77 | different durations give different texts |
| AdminUpload.UploadForm.constructor | frontend/src/components/AdminUpload.jsx:10-14 | no file, no errors, not uploading, progress 0, no uploaded video |
| AdminUpload.UploadForm.Select | frontend/src/components/AdminUpload.jsx:15 | choosing a file, possible only while not uploading (the input is disabled then, line 127), sets the selected file |
| AdminUpload.UploadForm.BeginSubmit | frontend/src/components/AdminUpload.jsx:17-21 | a submit starts exactly when not uploading and the file passes the validators; it then sets `uploading`, progress 0 and clears errors; a rejected file sets the field error |
| AdminUpload.UploadForm.FinishSubmit | frontend/src/components/AdminUpload.jsx:51-62 | success records the video and resets the form; failure sets the root error; both end with `uploading` false and progress 0 |
| Signup.HasMatch | frontend/src/pages/Signup.jsx:37-39 | the regular-expression test holds exactly when some character is in the class |
| Signup.Checks | frontend/src/pages/Signup.jsx:35-40 | `minLength` holds exactly at length 8 or more; `hasNumber`, `hasSpecialChar` and `hasUpperCase` hold exactly when the password contains a digit, a listed special character, or an ASCII capital |
| Signup.EmptyPasswordChecks | frontend/src/pages/Signup.jsx:35-40 | for the empty password every check is false and the checklist is hidden |
| Signup.ValidateSignup | frontend/src/pages/Signup.jsx:10-14 | the first name needs at least 3 characters and the password at least 8, with the schema's messages |
| Signup.SchemaAgreesWithChecklist | frontend/src/pages/Signup.jsx:10-40 | the schema accepts a password exactly when the checklist's length item is ticked |
| Editorial.FormatTime | frontend/src/components/Editorial.jsx:15-19 | the player's time text equals the upload page's duration text (a `0` exactly below ten seconds) and reads back as minutes and seconds |
| Editorial.Player.constructor | frontend/src/components/Editorial.jsx:7-11 | the player starts paused, unmuted, at volume 1 |
| Editorial.Player.TogglePlayPause | frontend/src/components/Editorial.jsx:21-30 | with the element, `isPlaying` flips; without it nothing changes |
| Editorial.Player.ToggleMute | frontend/src/components/Editorial.jsx:32-37 | with the element, `isMuted` flips; without it nothing changes |
| Editorial.Player.VolumeChange | frontend/src/components/Editorial.jsx:39-50 | the volume is always stored; with the element, the player is muted afterwards exactly when the volume is 0; without it `isMuted` is unchanged |
| Editorial.Player.Ended | frontend/src/components/Editorial.jsx:70-72 | the end of the video sets `isPlaying` to false |
| Editorial.ToggleTwiceRestores | frontend/src/components/Editorial.jsx:21-30 | toggling play twice restores the original state |

## Left out

- SolveDoubt.Respond: a first choice whose content is `null` is not modelled,
  because choices are strings. Such a reply would be stored by the panel as an
  entry without content and, like an empty reply
  (`ChatAi.EmptyReplyBlocksLaterTurns`), make every later request fail.
- The completion provider client is not modelled. Building it and calling it
  (backend/src/controllers/solveDoubt.js:17-19,125-132) are the parameter
  `provider`. Building the client is taken never to throw, and the API key is
  not modelled.
- `process.env.NODE_ENV` is the parameter `nodeEnv`.
- Console logging is not modelled: it is output only.
- Raw message fields are optional strings. A `null` element and a truthy role
  that is not a string raise a `TypeError`. Truthy non-string content passes
  through untyped. Neither is modelled. Any other falsy field, and any
  primitive element, behave as an absent field (`None`) and get the
  missing-field error.
- A missing problem field becomes the text `undefined`, as a template literal
  writes it. Other values are taken as already-stringified text. For example,
  the panel sends `visibleTestCases` as an array, and its text form is not
  modelled.
- The prose of the system prompt is abbreviated. The model keeps the field
  labels and the first heading of the instruction block. The wording does not
  affect any property.
- `toLowerCase` is modelled for ASCII letters only. For role tokens this is
  exact: no other character lower-cases to a letter of an accepted token. For
  the title and tag searches it is an approximation.
- String lengths are counted in characters, not UTF-16 code units. This
  affects the length rules in the Signup and ChatAi models for characters
  outside the Basic Multilingual Plane.
- Each chat submit is taken to complete before the next one starts. The stale
  closure over `messages` in `onSubmit` is not modelled.
- The form library's revalidation timing is not modelled, and neither is the
  submit button disabled by an input error.
- Progress percentages, `formatFileSize`, the player's `progressPercentage`
  and `formatMemory` are not modelled: they use floating point.
- The formatters take whole seconds. The flooring of fractional seconds is not
  modelled.
- The player's `volume` is a real number and is used only as zero or not zero.
- `window.confirm` before a delete is not modelled. A delete is modelled once
  it is confirmed.
- The DOM video element's `play`, `pause`, `muted` and `volume` writes are not
  modelled. Neither are the fullscreen handlers or the `timeupdate` listener.
- The e-mail rule of the sign-up schema is not modelled: it is the validation
  library's own pattern.
- Requests, rendering and the other pages are not modelled: the home page's
  fetches and logout, ProblemPage, SubmissionHistory, Admin, Login and
  AdminPanel.
