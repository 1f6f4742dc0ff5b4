# Story teller: intake form, review conversation and page switch

This project models the three pieces of logic in a small web application that
turns a questionnaire into an inspirational story with a language model.

- **Intake form** (`IntakeForm.dfy`). It covers the fixed questionnaire and the
  form record built from it, with every answer starting empty. It models the
  change handler that sets either one answer (`answers.<id>`) or one
  top-level field. It models the submit handler, which formats the record into
  a `questionsAndAnswers` list in questionnaire order and raises and then
  lowers the `isSubmitting` flag.
- **Review** (`StoryReview.dfy`). It covers the two-message prompt (a system
  message with fixed instructions and a user message with the name and every
  question/answer pair). It models the completion call as a function of the
  conversation sent, and the review screen's state: `story`, `isLoading`,
  `error`, `isRevisionModalOpen`, `revisionRequest` and `messages`. That state
  is a pure `ReviewState` with one transition function per handler (`Mount`,
  `Revise`, ...). A class `ReviewSession` holds the same fields, and its
  methods are proved to perform exactly those transitions.
- **Page** (`Page.dfy`). It covers the `form`/`review` switch, which keeps the
  submitted form across both transitions, and how the form's submit is wired
  to it.

The model follows the code where it departs from the intended design of a
growing conversation:

- No assistant reply is ever added to the history.
- A successful revision adds only the user's instruction.
- A failed revision drops the instruction.
- A recorded error is never cleared, so the error screen stays until the
  user goes back.
- The story starts as the empty string, not as "no story".
- There is no busy flag. The loading screen is the only guard.
- An empty questionnaire is not rejected.

`StoryReview.NoAssistantEver` and `StoryReview.RunPreserves` state these
history rules for any sequence of user actions after mount.

Wrappers.dfy holds `Option` and `Result`.

## Model

| member | source | states |
|---|---|---|
| IntakeForm.QuestionIds | components/intake-form.tsx:9-50 | the questionnaire has eight questions with ids challenge, impact, turning_point, first_steps, support, breakthrough, change, advice, in that order |
| IntakeForm.QuestionIdsWellFormed | components/intake-form.tsx:9-50 | question ids are pairwise distinct and contain no dot |
| IntakeForm.InitialAnswers | components/intake-form.tsx:58 | the reduce over the questions yields a map whose keys are exactly the question ids, each mapped to the empty string |
| IntakeForm.InitialAnswersSize | components/intake-form.tsx:58 | with distinct ids the reduce yields exactly one entry per question |
| IntakeForm.QuestionCount | components/intake-form.tsx:9-58 | the questionnaire's id set has as many elements as there are questions |
| IntakeForm.InitialFormState | components/intake-form.tsx:54-59 | the initial record has empty name, email and phone, no other keys, and an answer map keyed exactly by the question ids with empty answers |
| IntakeForm.FirstSegment | components/intake-form.tsx:84 | the id taken by `split('.')[1]` is the longest dot-free prefix of the text after `answers.` |
| IntakeForm.FirstSegmentOfUndotted | components/intake-form.tsx:84 | a dot-free id is its own first segment |
| IntakeForm.QuestionIdOf | components/intake-form.tsx:84 | the id read from an `answers.` field follows the prefix in the field, contains no dot, and is followed by a dot when the field goes on |
| IntakeForm.InputChange | components/intake-form.tsx:82-98 | an `answers.`-prefixed field sets only that answer, leaving every other answer and every top-level field unchanged; any other field sets only that top-level key and leaves the answers unchanged; record shape and answer coverage are preserved |
| IntakeForm.AnswerFieldChange | components/intake-form.tsx:83-91 | the `answers.<id>` field used by each answer box changes exactly `answers[id]` and nothing else |
| IntakeForm.Placeholder | components/intake-form.tsx:100-121 | the placeholder is non-empty exactly for ids in the table, and is then the table's text; any other id gets the empty string |
| IntakeForm.PlaceholdersCoverQuestions | components/intake-form.tsx:100-120 | exactly the questionnaire's ids have a non-empty placeholder |
| IntakeForm.Pairs | components/intake-form.tsx:131-134 | the mapped list has one entry per question, entry i pairing question i's text with the answer stored under its id |
| IntakeForm.FormatSubmission | components/intake-form.tsx:129-135 | the payload keeps name, email, phone, answers and every other key of the record, and its `questionsAndAnswers` list follows questionnaire order with each question's stored answer |
| IntakeForm.StoryForm.constructor | components/intake-form.tsx:54-62 | a new form holds the initial record and is not submitting |
| IntakeForm.StoryForm.HandleInputChange | components/intake-form.tsx:82-98 | the record becomes the input change of the old record; the flag is untouched |
| IntakeForm.StoryForm.BeginSubmit | components/intake-form.tsx:123-135 | the flag is raised, the record is unchanged, and the payload is the formatted record |
| IntakeForm.StoryForm.FinishSubmit | components/intake-form.tsx:138-142 | the flag is lowered whatever the callback's outcome; the record is unchanged |
| IntakeForm.StoryForm.HandleSubmit | components/intake-form.tsx:123-143 | after submit the flag is down, the record unchanged, and the formatted record was handed on |
| StoryReview.CreateInitialPrompt | components/story-review.tsx:34-83 | exactly two messages: the fixed system instructions, then a user message that opens with the header and the `Name:` line |
| StoryReview.SystemMessageIsFixed | components/story-review.tsx:35-55 | the system message is the same whatever the submitted data |
| StoryReview.QABlock | components/story-review.tsx:65-69 | a pair's block holds the question at the `Q:` label's length and the answer after the question and the `A:` label, and its length is the labels', the question's, the answer's and the closing blank line's |
| StoryReview.QABlockLabels | components/story-review.tsx:65-69 | a pair's block opens with the `Q:` label, has the `A:` label between question and answer, and closes with a blank line |
| StoryReview.NameLine | components/story-review.tsx:57-63 | the text before the blocks opens with the header and the `Name:` label, holds the name verbatim after them, and ends with one newline |
| StoryReview.UserDetails | components/story-review.tsx:57-71 | the user message opens with the name line, and is exactly the name line when there are no pairs |
| StoryReview.JoinHead | components/story-review.tsx:63-71 | the joined blocks open with the first block, and the separator follows it whenever another block comes |
| StoryReview.JoinTail | components/story-review.tsx:63-71 | after the first block and the separator comes the join of the remaining blocks |
| StoryReview.JoinSlice | components/story-review.tsx:63-71 | each block stands verbatim at its offset in the joined text, followed by the blank-line separator when another block follows |
| StoryReview.JoinLength | components/story-review.tsx:63-71 | the joined text ends exactly with the last block |
| StoryReview.JoinOffsetGrows | components/story-review.tsx:63-71 | blocks appear in list order without overlap |
| StoryReview.BlockVerbatim | components/story-review.tsx:57-71 | pair i's `Q:`/`A:` block stands verbatim in the user message after the name line |
| StoryReview.PairVerbatim | components/story-review.tsx:57-71 | every question and every answer appears verbatim (not validated or changed) in the user message at its computed offset |
| StoryReview.PairLabels | components/story-review.tsx:62-71 | in the user message the `Q:` label stands right before every question and the `A:` label right before every answer |
| StoryReview.PairClosing | components/story-review.tsx:63-71 | in the user message every answer is followed by the closing blank line, and that by the blank-line separator when another pair follows |
| StoryReview.SeparatorVerbatim | components/story-review.tsx:63-71 | between the blocks of consecutive pairs of the user message stands the blank-line separator |
| StoryReview.PairsInOrder | components/story-review.tsx:62-71 | pair i's answer ends before pair j's question begins whenever i < j |
| StoryReview.UserDetailsEnd | components/story-review.tsx:57-71 | the user message ends right after the name line when there are no pairs, else right after the last pair's block |
| StoryReview.GenerateStory | components/story-review.tsx:86-110 | success exactly when the reply is OK, parsed and has a choice, returning the first choice; every failure is one error starting with `Error generating story: `: an unreachable provider carries the transport reason, a non-OK status `Failed to generate story`, an unreadable body the reading error, and an empty choice list the missing-choice `TypeError` message |
| StoryReview.Initial | components/story-review.tsx:25-30 | before the effect: loading, empty story, no error, empty history, dialog closed, empty instruction |
| StoryReview.Mount | components/story-review.tsx:113-126 | after the initial effect the history is the two-message prompt whatever the outcome and loading is over; on success the story is the text and there is no error, on failure the story stays empty and the error is recorded |
| StoryReview.OpenRevision | components/story-review.tsx:201-203 | only the dialog flag changes, to open |
| StoryReview.CancelRevision | components/story-review.tsx:238-242 | only the dialog flag changes, to closed |
| StoryReview.EditRevision | components/story-review.tsx:231-233 | only the pending instruction changes |
| StoryReview.RevisionRequestMessages | components/story-review.tsx:133-136 | the request is the history extended by one user message holding the instruction |
| StoryReview.Revise | components/story-review.tsx:129-148 | on success the history grows by exactly the user instruction, the story is replaced and the error kept; on failure history and story are unchanged and the error is set; either way loading is over, the dialog closed and the instruction cleared |
| StoryReview.Step | components/story-review.tsx:129-242 | one user action (open the dialog, 201-203; type the instruction, 231-233; cancel, 238-242; or submit the revision, 129-148) extends the history by at most one message and never clears an error; any action other than submitting a revision leaves history, story and error as they were |
| StoryReview.Run | components/story-review.tsx:129-242 | over a sequence of the dialog and revision handlers the history only grows, by at most one message per action, a recorded error stays recorded, and with no revision submitted history, story and error are unchanged |
| StoryReview.HistoryRoles | components/story-review.tsx:114-141 | in a well-shaped history the first message is the only system message and no message is an assistant reply |
| StoryReview.MountEstablishes | components/story-review.tsx:113-126 | the state after mount has a well-shaped history and a prefixed error |
| StoryReview.StepPreserves | components/story-review.tsx:129-148 | every handler keeps the history's shape, only extends it, by at most one message, and never clears an error |
| StoryReview.RunPreserves | components/story-review.tsx:129-148 | over any sequence of handlers the history keeps its shape and only grows, and a recorded error stays recorded |
| StoryReview.NoAssistantEver | components/story-review.tsx:113-148 | from mount through any actions the history never holds an assistant message |
| StoryReview.Screen | components/story-review.tsx:161-189 | loading screen exactly when loading; otherwise the error screen exactly when a non-empty error is recorded; otherwise the story |
| StoryReview.ErrorWins | components/story-review.tsx:174-182 | once loading is over, a recorded error always shows the error screen |
| StoryReview.GenerateShareableLink | components/story-review.tsx:151-154 | the link is the fixed sharer URL; the encoded story is not part of it |
| StoryReview.ShareLinkIgnoresStory | components/story-review.tsx:151-154 | the share link is the same whatever the story |
| StoryReview.ReviewSession.constructor | components/story-review.tsx:113-126 | a new session is in the state the initial effect leaves, with a well-shaped history |
| StoryReview.ReviewSession.OpenRevisionModal | components/story-review.tsx:201-203 | the session performs the open-dialog transition |
| StoryReview.ReviewSession.CloseRevisionModal | components/story-review.tsx:238-242 | the session performs the cancel transition |
| StoryReview.ReviewSession.SetRevisionRequest | components/story-review.tsx:231-233 | the session performs the edit transition |
| StoryReview.ReviewSession.HandleRevisionRequest | components/story-review.tsx:129-148 | the session performs the revision transition and keeps its invariant |
| StoryReview.ReviewSession.CurrentScreen | components/story-review.tsx:161-189 | the session shows the loading screen exactly while loading; once loading is over, any recorded error is shown, and with no error the story is shown |
| Page.Home.constructor | app/page.tsx:7-9 | the page starts at the form step with no form data |
| Page.Home.HandleFormSubmit | app/page.tsx:11-14 | the form data becomes exactly the submitted data and the step becomes review |
| Page.Home.HandleBack | app/page.tsx:16-18 | the step becomes form and the form data is kept |
| Page.Home.CurrentView | app/page.tsx:22-32 | the form is shown exactly in the form step; otherwise the review of the stored form data |
| Page.SubmitFromForm | app/page.tsx:22-25 | with the page's callback, the form is busy while the callback runs and the page moves to review with the formatted record |
| Page.ReturnToForm | app/page.tsx:16-25 | going back shows the form step with the submitted data kept by the page, and a newly mounted form holding the initial record and not submitting |
| Page.ResubmitReplaces | app/page.tsx:11-18 | submitting, going back and submitting again leaves the second data in the review |
| Page.EnterReview | app/page.tsx:26-31 | the review started for the stored form seeds its conversation from that form |

## Left out

- The HTTP request itself is left out: endpoint, headers, bearer key, model id, temperature and JSON decoding. `StoryReview.Provider` maps the conversation sent to a `Reply` (unreachable, or a status with a parsed or unparsable body).
- A first choice whose message has no `content` field makes the source return `undefined` as the story. The model's `Payload` carries only string contents, so this case is not represented.
- `NoChoiceMessage` uses the browser's `TypeError` wording for a missing first choice. Other JavaScript engines word it differently.
- The instruction texts of the system message and the user-message header, and the placeholder examples, are short stand-in constants. Nothing depends on their wording. The question texts are exact.
- The handlers are modelled as atomic steps. The source awaits the completion call, so the loading screen shows between the two halves of a step. With atomic steps that screen is only reachable in `StoryReview.Initial`.
- Because handlers are atomic, overlapping calls are not modelled, nor is a result arriving after the user has left the review.
- The review session is created already mounted: the first render and the initial effect are one constructor.
- Re-running the effect on a changed `formData` while mounted is not modelled. The page only changes `formData` on the form step, so this never happens.
- Loading and saving the form record in `localStorage` (intake-form.tsx:65-80) is I/O and is left out. `IntakeForm.HasAllAnswers` stands for what that code does not guarantee: every question has an answer entry.
- Page.SubmitFromForm: the switch to the review unmounts the form, so the form object kept by the model stands for a component that is no longer shown. Its record and flag are discarded, and the flag-lowering `finally` lands on the unmounted component. Going back mounts a new form from the initial record (`Page.ReturnToForm`); only the left-out `localStorage` load restores the earlier answers.
- IntakeForm.StoryForm.HandleSubmit: the browser's own guards are not modelled. The model lets a submit through while a required input is empty (intake-form.tsx:161, 185, 209) and while the form is already submitting, which the disabled button prevents (intake-form.tsx:231).
- The `console.error` logging of a rejected submit callback (intake-form.tsx:139) is output only and is left out. `IntakeForm.StoryForm.FinishSubmit` handles both settlements alike.
- A reply body that is JSON but lacks `choices` or the first choice's `message` fails in the source with a `TypeError`. The model has no separate form for it: it is an `Unparsable` payload carrying that error's message.
- IntakeForm.InputChange: requires `field != "answers"`. The source would overwrite the answer map with a string, and no input passes that key.
- IntakeForm.Placeholder: ids naming built-in object members (`toString`, ...) would return those members in the source. The model returns `""`.
- Rendering, markdown, dialogs and icons are left out. So are the share dialog and its actions (clipboard, alerts, mail link) and the unused `onApprove` callback. `components/ui/card.jsx` is not part of this model.
