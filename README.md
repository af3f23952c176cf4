# Hell High School — a Dafny model of the game logic

Hell High School is an escape-room quiz game in Japanese. It is played in a browser version (`app.js`) and in a set of Streamlit pages. The Streamlit pages are:

- three quiz stages, each a chat quiz with a principal played by a language model. The first stage and the local third stage open with a PIN-locked door; the second stage has no door; the hosted third stage opens its door with a plain button;
- Kokoro, a chat assistant;
- five timed writing and drawing tasks, graded by a language-model evaluator.

This project models the deterministic logic of those pages and proves what it promises:

- **Session state.** `st.session_state` and the browser's `gameState` become classes. Each class has one field per key and a set `keys` of the keys already present. Initialisation fills only missing keys, so running it a second time changes nothing.
- **Transcripts.** Every quiz keeps a display transcript and an API transcript that receive the same entries. A blank submission is ignored. An assistant entry is added only for a non-empty reply. The API transcript stays "the seed entry followed by the display transcript" across every turn.
- **Completion.** The one-shot test on the latest entry moves the page to its success screen. The scripted closing lines contain the trigger phrases. The browser's end phrases each finish only their own quiz.
- **The door.** The door opens on the PIN `442222`, and a PIN is only checked at six characters.
- **Text for speech.** The reading-guide dictionaries are ordered replace-all passes. The browser dictionary declares the Python dictionary's 24 entries and then 17 more, but `Object.entries` walks it in JavaScript's key order: the three year keys "1192", "1968", "2005" first, ascending, then the other 38 words as declared. Hiragana text passes through unchanged. The kana table spells 源頼朝 out before the guides run.
- **The Gemini request.** It carries every non-system entry, in order. The system prompt becomes the instruction exactly when it is non-empty.
- **Grading.** Each task has its own length score, always between 0 and 20; the model states exactly when it is full or zero. Totals fall into three tiers, and the pass mark is the "high" tier. The countdown never goes negative, and its minute/second split is unique. Removing code fences from the evaluator's reply leaves no fence, even where deletions bring backticks together. A stored evaluation sticks.
- **Task flows.** The story chains lead to the tasks. A pass leads on; a fail resets the task and restarts its clock. The diagnosis task gives a short submission zero points without asking the model. The spreadsheet task never leads on and never removes fences. The image task moves through four themes and keeps its index inside the theme list.

Remote services and the clock are parameters of the model:

- A reply from the chat model is an `Option<string>`, where `None` means the call failed.
- An evaluator call is a function `ask` from the prompt's data to an `Option<string>`.
- `json.loads` is a function `parse` to `Option<Evaluation>`. Its `None` stands for a parse error or an empty object.
- A generated image is an `Option<string>` URL.
- The time is `now`, in whole seconds.

Each button is a `pressed` flag given to the render method that draws it.

The modules are:

| module | what it holds |
|---|---|
| `Wrappers` | the `Option` type |
| `Text` | Python `strip`, JavaScript `trim`, substring containment and replace-all |
| `Rewrite` | ordered dictionary passes and the three dictionaries |
| `Chat` | transcripts and turns |
| `Gemini` | the request builder |
| `Grading` | length scores, tiers, countdown and reply clean-up |
| `Gate` | the PIN |
| `App` | `app.js` |
| `FirstStage`, `SecondStage`, `ThirdStage`, `ThirdStageRender`, `Kokoro` | the chat pages |
| `OpeningTask`, `TaskLetter`, `TaskDiagnosis`, `TaskExcel`, `TaskImage` | the task pages |

`FirstStage` models both `1st-stage.py` and `1st-stage-render.py`. The two files run the same logic and differ only in layout and prompt text.

## Model

| member | source | states |
|---|---|---|
| Text.TrimStart | 1st-stage.py:464 | the result is a suffix of the input; the cut prefix is blank; the result does not start with whitespace |
| Text.TrimEnd | 1st-stage.py:464 | the result is a prefix of the input; the cut suffix is blank; the result does not end with whitespace |
| Text.Strip | 1st-stage.py:464 | Python's `strip()` and JavaScript's `trim()` (app.js:736): the result is no longer than the input and neither starts nor ends with whitespace; `StripTrims` adds that only blank ends are cut |
| Text.ReplaceAll | 3rd-stage.py:91-94 | `str.replace` and the global replace of app.js:680: left to right, never rescanning inserted text; a same-length reading keeps the length and a shorter one never lengthens the text; `ReplaceAbsent`, `ReplaceBySelf` and `DeletingFencesLeavesNone` state its other properties |
| Text.StripTrims | app.js:736 | stripping cuts a blank prefix and a blank suffix and leaves no whitespace at either end |
| Text.StripEmptyIffBlank | 1st-stage.py:464 | `s.strip()` is empty exactly when `s` is all whitespace, so the blank test of `handle_submit` is a whitespace test |
| Text.StripIdempotent | opening.py:265-267 | stripping an already stripped reply changes nothing |
| Text.ReplaceAbsent | 3rd-stage.py:92-94 | replacing a word that does not occur leaves the text unchanged |
| Text.ReplaceBySelf | 3rd-stage.py:92-94 | replacing a word by itself leaves the text unchanged |
| Text.DeletingFencesLeavesNone | opening.py:267 | after every "```" is deleted no "```" remains, even where deletions join backticks |
| Rewrite.GuardedStepIsReplaceAll | 3rd-stage.py:91-94 | the guard "word occurs and differs from its reading" never changes the outcome of a replace-all step |
| Rewrite.ApplyAllConcat | 3rd-stage.py:91-94 | a pass over two dictionaries in sequence is the second pass applied to the first one's result |
| Rewrite.ApplyAllNoneOccur | 3rd-stage.py:91-94 | text containing none of the dictionary words comes back unchanged |
| Rewrite.ApplyGuides | 3rd-stage.py:60-96 | the loop of `apply_pronunciation_guides`, and that of `applyPronunciationGuides` (app.js:631-685), computes the ordered replace-all pass over its dictionary |
| Rewrite.ConvertWords | 3rd-stage.py:318-338 | the conversion loop of `convert_to_hiragana` computes the ordered replace-all pass over the kana table |
| Rewrite.IndexKeyed | app.js:678 | each side of the split between array-index keys and other keys holds only words of its kind, and never more entries than the input |
| Rewrite.IndexKeyedPartition | app.js:678 | every entry lands on exactly one side of the split |
| Rewrite.StageGuidesSplit | app.js:634-657 | of the 24 shared entries only the three years are array-index keys; the other side keeps the 21 words in declared order |
| Rewrite.BrowserEnumerationOrder | app.js:633-682 | `Object.entries` walks the 41 declared entries as the array-index keys ascending, then the other keys in declaration order, each entry exactly once |
| Rewrite.BrowserYearsFirst | app.js:633-682 | the browser pass is the year pass, then the 21 other shared words, then the 17 browser-only words |
| Rewrite.EntryActsOnEarlierResult | app.js:678-682 | entry k replaces its word in exactly the text the entries before it left |
| Rewrite.YearBeforeCounter | app.js:633-682 | of the 41 walked entries "1192" is entry 0 and the counter "年" entry 35, so the year is read before the counter |
| Rewrite.AbsentFromHiragana | 3rd-stage.py:63-88 | a word that does not start with a hiragana letter does not occur in hiragana text |
| Rewrite.HiraganaPassesThrough | 3rd-stage.py:91-94 | hiragana text passes unchanged through a dictionary whose words all start otherwise |
| Rewrite.FirstEntryThenHiragana | 3rd-stage.py:334-336 | when the first entry turns the text into hiragana and no later word starts with hiragana, the pass ends with that result |
| Chat.TextsOfConcat | 1st-stage.py:466-487 | filtering a transcript by role distributes over appending: earlier entries keep their order |
| Chat.TurnRecords | 1st-stage.py:466-487 | after a turn the user texts gain exactly the input, the assistant texts gain the reply exactly when it is truthy, and no system text is added |
| Chat.Turn | 1st-stage.py:466-487 | the entries one accepted submission appends to each transcript: the user text, then the reply only when truthy; `TurnRecords` and `TurnKeepsNoSystem` state what it adds and leaves out |
| Chat.CompletionDue | 1st-stage.py:634-638 | the one-shot test: the latest entry, of any role, holds the trigger (Python `in`) and the flag is clear; a set flag never fires, and a firing entry is at least as long as the trigger |
| Chat.TurnKeepsNoSystem | app.js:747-786 | a turn never adds a system entry |
| Chat.MirrorsAppend | 1st-stage.py:466-487 | appending the same entries to both transcripts keeps the API transcript equal to its seed plus the display transcript, one entry longer |
| Chat.ClosingLineCompletes | 1st-stage.py:629-637 | a scripted line that holds the trigger ends the quiz whenever the latest entry says that line and the flag is clear |
| Gate.CheckPin | 1st-stage.py:523-524 | a PIN is checked only at six characters; it opens the door exactly when it is `442222` and is rejected exactly when it is another six-character string |
| Gemini.RequestOf | app.js:486-516 | the request has an instruction exactly when the first entry is a non-empty system entry, and then the instruction is that entry's text |
| Gemini.ContentsOfConcat | app.js:492-502 | converting a transcript distributes over appending |
| Gemini.ContentsCarryTexts | app.js:492-502 | the user parts are the user texts and the model parts are the assistant texts, in order; only system entries are dropped |
| Gemini.PartsOfConcat | app.js:492-502 | selecting parts by role distributes over appending |
| Gemini.ContentsOfNoSystem | app.js:492-502 | without system entries every entry is converted in place |
| Gemini.SeededRequest | app.js:486-516 | on a seeded transcript the prompt becomes the instruction exactly when it is non-empty, and every later entry is converted one for one |
| Gemini.BuildRequest | app.js:486-516 | the conversion loop builds the reference request |
| Grading.LengthScore | opening.py:233 | `max(0, 20 - abs(len - target) // step)` lies between 0 and 20 |
| Grading.LengthScoreFull | task-letter.py:265 | the length score is full exactly when the distance to the target is under one step |
| Grading.LengthScoreZero | task-letter.py:265 | the length score is zero exactly when the distance is at least twenty steps |
| Grading.LengthScoreMonotone | task-letter.py:265 | the length score never rises as the length moves away from the target |
| Grading.LetterLengthScore | task-letter.py:265 | the letter score is 20 exactly for 361 to 439 characters and 0 exactly from 1200 |
| Grading.ProposalLengthScore | opening.py:233 | the proposal score is 20 exactly for 781 to 819 characters and 0 exactly up to 400 or from 1200 |
| Grading.ExcelLengthScore | task-excel.py:104-105 | the report score is 20 exactly for 761 to 839 characters and 0 exactly when empty or from 1600 |
| Grading.TierOf | task-letter.py:326-347 | below 60 fails, 60 to 79 needs work, 80 and above rates high; each tier exactly on its range |
| Grading.PassesIffHigh | task-letter.py:370-383 | the total that offers the next chapter is exactly the one rated high |
| Grading.Remaining | task-letter.py:448-449 | the seconds left never go negative, are zero exactly once the limit is reached, and otherwise add up with the elapsed time to the limit |
| Grading.Clock | task-letter.py:451 | the countdown splits into minutes and seconds under 60 that add back up to the remaining time |
| Grading.ClockUnique | task-letter.py:490 | that split is the only one with seconds under 60 |
| Grading.CleanReply | opening.py:265-267 | the cleaned reply holds no code fence and has no whitespace to trim |
| Grading.CleanReplyKeepsPlain | task-letter.py:299-301 | a reply already trimmed and unfenced is parsed exactly as it came |
| Grading.TrimReply | task-excel.py:132 | the spreadsheet reply is the input less a blank prefix and suffix, and is trimmed |
| Grading.StoreOnceSticks | task-letter.py:317-321 | over any number of later renders a stored evaluation is kept whatever the evaluator says, and with none stored the first one that comes back is kept |
| Grading.StoreOnce | task-letter.py:317-321 | one render's store: a result is kept exactly when one was stored or one came back, and it is one of the two; `StoreOnceSticks` states that it sticks |
| App.ContainsSameLength | app.js:876-890 | a phrase occurs in a string of its own length only as the whole string |
| App.EndPhrasesAreDistinct | app.js:876-890 | each quiz's end phrase finishes that quiz and not the other |
| App.EndPhrase | app.js:876-890 | the sentence that ends each quiz; `EndPhrasesAreDistinct` shows each one finishes only its own quiz |
| App.Finishes | app.js:779-780 | a reply finishes a quiz when it contains (`includes`) that quiz's end phrase; `EndPhrasesAreDistinct` states which phrases finish which quiz |
| App.ApiKeyStore.constructor | app.js:36-39 | both keys start empty |
| App.ApiKeyStore.SetApiKey | app.js:42-49 | a key is stored, and `true` returned, exactly when provider and key are non-empty; else nothing changes |
| App.Game.constructor | app.js:1-19 | the initial screen, flags, model, voice, empty transcripts and the loaded prompts |
| App.Game.ShowScreen | app.js:324-325 | the screen is recorded and nothing else changes |
| App.Game.ClickDoor | app.js:126-132 | clicking the door shows the second opening screen |
| App.Game.DoorTimerElapsed | app.js:126-132 | two seconds after the click the quiz introduction is shown |
| App.Game.JumpToQuizIntro | app.js:146-148 | the debug jump shows the quiz introduction |
| App.Game.StartQuiz1 | app.js:162-168 | a fresh display transcript and an API transcript seeded with the first prompt; the quiz screen |
| App.Game.StartQuiz2 | app.js:230-237 | the second quiz, a fresh transcript seeded with its prompt, the second quiz screen |
| App.Game.JumpToQuiz2 | app.js:135-184 | the hidden, opening and sidebar jumps (also app.js:915-928): as the next-quiz button, with quiz 1 marked done |
| App.Game.JumpToMiddleSuccess | app.js:150-272 | the debug jumps on all three screens mark quiz 1 done and show the middle success screen |
| App.Game.JumpToFinalSuccess | app.js:155-279 | the debug jumps on all three screens mark both quizzes done and show the final success screen |
| App.Game.ChooseModel | app.js:195-253 | the model radio buttons of either quiz screen set the model |
| App.Game.SetTtsEnabled | app.js:204-258 | the speech checkbox of either quiz screen sets speech on or off |
| App.Game.ChooseTtsProvider | app.js:208-266 | the voice radio buttons of either quiz screen set the voice |
| App.Game.CheckSuccessCondition | app.js:876-890 | a reply holding the current quiz's end phrase marks that quiz done and shows its success screen; otherwise nothing changes |
| App.Game.PushEntry | app.js:747-748 | one entry is pushed onto both transcripts, nothing else changes |
| App.Game.ClearInput | app.js:741 | the quiz's own input field is emptied, the other kept |
| App.Game.AcceptSubmission | app.js:741-786 | the trimmed text and a truthy reply go to both transcripts, the field is emptied, and the success test runs on the reply |
| App.Game.HandleSubmit | app.js:732-873 | a blank input does nothing; otherwise the trimmed text and a truthy reply go to both transcripts, the field is cleared, the end phrase finishes the quiz, and a seeded transcript stays seeded |
| App.Game.GeminiRequest | app.js:460-545 | the Gemini request of a seeded transcript has the prompt as instruction exactly when it is non-empty and sends every display entry, in order |
| FirstStage.ClosingLineTriggers | 1st-stage-render.py:117 | the hosted version's scripted closing line holds 全問正解, and so does the local one (1st-stage.py:115), so saying either as the latest entry ends the quiz |
| FirstStage.Page.constructor | 1st-stage.py:18-133 | a new session has no key set |
| FirstStage.Page.InitSessionState | 1st-stage.py:18-133 | each missing key gets its default, each present key keeps its value; a second call changes nothing; fresh transcripts are mirrored (likewise 1st-stage-render.py:22-135) |
| FirstStage.Page.FillSettings | 1st-stage.py:18-133 | the speech and completion keys get their defaults when missing |
| FirstStage.Page.TypeInput | 1st-stage.py:646-651 | typing sets the answer field |
| FirstStage.Page.HandleSubmit | 1st-stage.py:460-489 | a blank field changes nothing; otherwise the unstripped text and a truthy reply go to both transcripts, the field is emptied, and mirroring is kept (likewise 1st-stage-render.py:396-425) |
| FirstStage.Page.AppendTurn | 1st-stage.py:466-487 | the entered text and a truthy reply land on both transcripts, keeping them mirrored |
| FirstStage.Page.DisplayTitle | 1st-stage.py:491-507 | the start button opens the door screen (likewise 1st-stage-render.py:427-443) |
| FirstStage.Page.DisplayOpening | 1st-stage.py:509-562 | the PIN outcome is `CheckPin`, and only the door code opens the quiz (likewise 1st-stage-render.py:445-498) |
| FirstStage.Page.DisplayQuiz | 1st-stage.py:604-653 | the latest entry holding 全問正解 with the flag clear sets the flag and shows success; once set it never fires again (likewise 1st-stage-render.py:540-589) |
| FirstStage.Page.DisplaySuccess | 1st-stage.py:564-588 | the form button shows the form (likewise 1st-stage-render.py:500-524) |
| FirstStage.Page.ToggleSpeech | 1st-stage.py:655-702 | the speech toggle acts only on the quiz screen (likewise 1st-stage-render.py:591-638) |
| SecondStage.Page.constructor | 2nd-stage.py:16-81 | a new session has no key set |
| SecondStage.Page.InitSessionState | 2nd-stage.py:16-81 | each missing key gets its default, each present key keeps its value; fresh transcripts are mirrored |
| SecondStage.Page.TypeInput | 2nd-stage.py:523-528 | typing sets the message field |
| SecondStage.Page.HandleSubmit | 2nd-stage.py:432-461 | a blank field changes nothing; otherwise the text and a truthy reply go to both transcripts and the field is emptied, keeping mirroring |
| SecondStage.Page.AppendTurn | 2nd-stage.py:438-459 | the entered text and a truthy reply land on both transcripts |
| SecondStage.Page.ToggleSpeech | 2nd-stage.py:463-533 | the sidebar toggle sets speech on every render |
| ThirdStage.ConvertToHiragana | 3rd-stage.py:318-338 | the display text is the input; the speech text is the ordered pass over the six kana entries |
| ThirdStage.FormatMessage | 3rd-stage.py:340-365 | the entry is displayed as it is; speech is made, from the kana-then-guides text, exactly for a new non-user entry with speech on |
| ThirdStage.SpeechText | 3rd-stage.py:98-102 | the text `generate_speech` reads: the kana pass of `convert_to_hiragana` (3rd-stage.py:347), then the reading guides; `KanaBeforeGuides` shows the two passes interact |
| ThirdStage.GuidesSkipHiragana | 3rd-stage.py:60-96 | hiragana text passes the reading guides unchanged |
| ThirdStage.KanaFirstEntry | 3rd-stage.py:322 | the first kana entry reads 源頼朝 as みなもとのよりとも |
| ThirdStage.KanaTailKanjiLed | 3rd-stage.py:323-327 | every later kana entry starts with a kanji |
| ThirdStage.ShogunReadingIsHiragana | 3rd-stage.py:322 | that reading is written in hiragana only |
| ThirdStage.KanaSpellsShogun | 3rd-stage.py:318-338 | the kana pass turns 源頼朝 into みなもとのよりとも |
| ThirdStage.KanaBeforeGuides | 3rd-stage.py:340-365 | the speech text of 源頼朝 is みなもとのよりとも: the kana pass runs before the guides, which leave it alone |
| ThirdStage.Page.constructor | 3rd-stage.py:31-58 | a new session has no key set |
| ThirdStage.Page.InitSessionState | 3rd-stage.py:31-58 | missing keys get defaults; a missing prompt file stops the page before the API transcript and later keys are set; otherwise the transcript is seeded with the prompt |
| ThirdStage.Page.FillSettings | 3rd-stage.py:31-58 | the speech and completion keys get their defaults when missing |
| ThirdStage.Page.TypeInput | 3rd-stage.py:553-558 | typing sets the answer field |
| ThirdStage.Page.HandleSubmit | 3rd-stage.py:367-396 | a blank field changes nothing; otherwise the text and a truthy reply go to both transcripts and the field is emptied, keeping mirroring |
| ThirdStage.Page.AppendTurn | 3rd-stage.py:373-394 | the entered text and a truthy reply land on both transcripts |
| ThirdStage.Page.DisplayTitle | 3rd-stage.py:398-414 | the start button opens the door screen |
| ThirdStage.Page.DisplayOpening | 3rd-stage.py:416-478 | the PIN outcome is `CheckPin`, and only the door code opens the quiz introduction |
| ThirdStage.Page.DisplayQuizIntro | 3rd-stage.py:493-516 | the challenge button starts the quiz |
| ThirdStage.Page.DisplayQuiz | 3rd-stage.py:518-560 | the latest entry holding 全問正解かい with the flag clear sets the flag and shows success; once set it never fires again |
| ThirdStage.Page.ToggleSpeech | 3rd-stage.py:562-607 | the speech toggle acts only on the quiz screen |
| ThirdStageRender.ClosingLineTriggers | 3rd-stage-render.py:134 | the scripted closing line holds ゲーム終了, so saying it as the latest entry ends the quiz |
| ThirdStageRender.ScanForGameEnd | 3rd-stage-render.py:528-535 | the scan over every entry equal to the latest fires exactly when the latest entry holds the trigger and the flag is clear |
| ThirdStageRender.Page.constructor | 3rd-stage-render.py:31-150 | a new session has no key set |
| ThirdStageRender.Page.InitSessionState | 3rd-stage-render.py:31-150 | each missing key gets its default, each present key keeps its value; fresh transcripts are mirrored |
| ThirdStageRender.Page.TypeInput | 3rd-stage-render.py:543-548 | typing sets the answer field |
| ThirdStageRender.Page.HandleSubmit | 3rd-stage-render.py:369-398 | a blank field changes nothing; otherwise the text and a truthy reply go to both transcripts and the field is emptied, keeping mirroring |
| ThirdStageRender.Page.AppendTurn | 3rd-stage-render.py:375-396 | the entered text and a truthy reply land on both transcripts |
| ThirdStageRender.Page.DisplayTitle | 3rd-stage-render.py:400-420 | the start button opens the door screen; the debug button jumps to success |
| ThirdStageRender.Page.DisplayOpening | 3rd-stage-render.py:422-438 | the door button leads to the quiz introduction, with no PIN |
| ThirdStageRender.Page.DisplayQuizIntro | 3rd-stage-render.py:489-511 | the yes button starts the quiz |
| ThirdStageRender.Page.DisplaySuccess | 3rd-stage-render.py:440-460 | the next button shows the form |
| ThirdStageRender.Page.DisplayQuiz | 3rd-stage-render.py:513-550 | the scan fires at most once, setting the flag and the success screen; once the flag is set a render changes nothing |
| Kokoro.Page.constructor | kokoro_assistant.py:11-30 | a new session has no key set |
| Kokoro.Page.InitSessionState | kokoro_assistant.py:11-30 | missing transcripts get their defaults, the API one starting with the greeting; fresh transcripts are mirrored |
| Kokoro.Page.HandleSubmit | kokoro_assistant.py:265-308 | a blank field changes nothing; otherwise the text and a truthy reply go to both transcripts and the field is emptied; the API transcript stays one longer |
| Kokoro.Page.AppendTurn | kokoro_assistant.py:281-302 | the entered text and a truthy reply land on both transcripts |
| Kokoro.Page.ChatInput | kokoro_assistant.py:362-390 | any non-empty chat input, even whitespace, and a truthy reply go to both transcripts |
| OpeningTask.EvaluateProposal | opening.py:227-274 | the proposal and its length score go to the evaluator; a failed call gives nothing, otherwise the cleaned reply is parsed |
| OpeningTask.NextScreen | opening.py:26-185 | exactly the four story screens have a next button |
| OpeningTask.StoryChain | opening.py:26-185 | opening, clinic, introduction and task introduction lead to the task in that order, and nothing leads back to the opening |
| OpeningTask.Page.constructor | opening.py:12-24 | a new session has no key set |
| OpeningTask.Page.InitSessionState | opening.py:12-24 | each missing key gets its default (300-second timer, opening screen), each present key keeps its value |
| OpeningTask.Page.FillProgress | opening.py:12-24 | the clock, result and Kokoro flag get their defaults when missing |
| OpeningTask.Page.DisplayStory | opening.py:26-185 | a press moves each story screen on; the press on the task introduction starts the clock |
| OpeningTask.Page.DisplayTask | opening.py:187-225 | on the task screen the clock starts if needed, the text is kept, and time-out or submit leads to evaluation |
| OpeningTask.Page.StoreEvaluation | opening.py:311-315 | the evaluator runs only while no result is stored; a result that comes back is kept |
| OpeningTask.Page.DisplayEvaluation | opening.py:304-386 | the tier of the stored result; a fail below 60 shows Kokoro's scene once; a pass leads on; a fail resets the task with the clock stopped |
| OpeningTask.Page.SidebarView | opening.py:398-414 | the clock shows exactly on the task and evaluation screens once started, as minutes and seconds under 60 of the remaining time; Kokoro shows exactly when met and not on an evaluation screen still waiting for its result |
| TaskLetter.EvaluateLetter | task-letter.py:259-308 | the letter and its length score go to the evaluator; a failed call gives nothing, otherwise the cleaned reply is parsed |
| TaskLetter.Page.constructor | task-letter.py:97-107 | a new session has no key set |
| TaskLetter.Page.InitSessionState | task-letter.py:97-107 | each missing key gets its default, each present key keeps its value |
| TaskLetter.Page.FillProgress | task-letter.py:97-107 | the clock and result get their defaults when missing |
| TaskLetter.Page.DisplayOpening | task-letter.py:385-390 | the next button shows the story |
| TaskLetter.Page.DisplayStory | task-letter.py:392-432 | the start button opens the task and starts the clock at `now` |
| TaskLetter.Page.StoreEvaluation | task-letter.py:317-321 | the evaluator runs only while no result is stored |
| TaskLetter.Page.DisplayEvaluation | task-letter.py:310-383 | the tier of the stored result; a pass leads to the next chapter; a fail resets the letter and result and restarts the clock |
| TaskLetter.Page.DisplayTask | task-letter.py:434-482 | on the task screen the countdown is shown; the text is kept; time-out or submit leads to evaluation; a stored result is evaluated in place |
| TaskLetter.Page.SidebarClock | task-letter.py:484-501 | the countdown shows exactly once the clock has started, as minutes and seconds of the remaining time |
| TaskDiagnosis.EvaluateDiagnosis | task-dif-dagnosis.py:205-279 | a submission under 50 characters after trimming scores zero without a call; otherwise the reply is cleaned and parsed |
| TaskDiagnosis.ShortSubmissionFails | task-dif-dagnosis.py:209-220 | the zero verdict is consistent and fails |
| TaskDiagnosis.Page.constructor | task-dif-dagnosis.py:80-90 | a new session has no key set |
| TaskDiagnosis.Page.InitSessionState | task-dif-dagnosis.py:80-90 | each missing key gets its default, each present key keeps its value |
| TaskDiagnosis.Page.FillProgress | task-dif-dagnosis.py:80-90 | the clock, result and next-chapter flag get their defaults when missing |
| TaskDiagnosis.Page.DisplayOpening | task-dif-dagnosis.py:350-355 | the next button shows the story |
| TaskDiagnosis.Page.DisplayStory | task-dif-dagnosis.py:357-392 | the start button opens the task and starts the clock |
| TaskDiagnosis.Page.DisplayEvaluation | task-dif-dagnosis.py:281-341 | the tier of the stored result; a pass leads on; a fail resets the task and restarts the clock |
| TaskDiagnosis.Page.StoreEvaluation | task-dif-dagnosis.py:286-290 | the evaluator runs only while no result is stored |
| TaskDiagnosis.Page.ResetEvaluation | task-dif-dagnosis.py:343-348 | an empty submission, no result, the task screen and a restarted clock |
| TaskDiagnosis.Page.DisplayTask | task-dif-dagnosis.py:394-442 | on the task screen the two-minute countdown is shown, the text kept, and time-out or submit leads to evaluation |
| TaskDiagnosis.Page.SidebarClock | task-dif-dagnosis.py:444-461 | the countdown shows exactly once the clock has started |
| TaskExcel.EvaluateReport | task-excel.py:101-139 | the report and its length score go to the evaluator; a failed call gives nothing, otherwise the trimmed reply is parsed |
| TaskExcel.FencesReachParser | task-excel.py:131-133 | a trimmed fenced reply reaches the parser with its fence, unlike the other tasks |
| TaskExcel.Page.constructor | task-excel.py:22-32 | a new session has no key set |
| TaskExcel.Page.InitSessionState | task-excel.py:22-32 | each missing key gets its default, each present key keeps its value |
| TaskExcel.Page.FillProgress | task-excel.py:22-32 | the clock and result get their defaults when missing |
| TaskExcel.Page.DisplayOpening | task-excel.py:201-206 | the next button shows the story |
| TaskExcel.Page.DisplayStory | task-excel.py:208-226 | the start button opens the task and starts the clock |
| TaskExcel.Page.StoreEvaluation | task-excel.py:144-148 | the evaluator runs only while no result is stored |
| TaskExcel.Page.DisplayEvaluation | task-excel.py:141-199 | whatever the total, the button resets the report and result and restarts the clock on the task |
| TaskExcel.Page.DisplayTask | task-excel.py:228-286 | on the task screen the countdown is shown, the text kept, and time-out or submit leads to evaluation |
| TaskImage.FourThemes | task-image.py:272-280 | there are four themes |
| TaskImage.EvaluateImage | task-image.py:31-80 | the image and theme go to the evaluator; a failed call gives nothing, otherwise the cleaned reply is parsed |
| TaskImage.Page.constructor | task-image.py:242-246 | a new session has no key set |
| TaskImage.Page.InitPage | task-image.py:243-246 | the page and completed count get their defaults when missing |
| TaskImage.Page.DisplayStory | task-image.py:184-255 | the opening button leads to the nurse, and the nurse button (task-image.py:253-255) to the task |
| TaskImage.Page.EnterTask | task-image.py:264-284 | the first visit sets index 0, no image, nothing submitted, no result and the four themes; the current theme is the indexed one |
| TaskImage.Page.FillDrawingKeys | task-image.py:264-280 | the index, image and submitted keys get their defaults when missing |
| TaskImage.Page.FillThemeKeys | task-image.py:264-280 | the result and theme keys get their defaults when missing |
| TaskImage.Page.RequestDrawing | task-image.py:289-298 | an empty prompt is refused; a drawing that comes back replaces the shown one and clears submission and result |
| TaskImage.Page.SubmitDrawing | task-image.py:301-321 | the submit button marks a shown drawing submitted |
| TaskImage.Page.Redraw | task-image.py:301-321 | the redraw button clears the drawing, submission and result |
| TaskImage.Page.StoreEvaluation | task-image.py:89-93 | the evaluator runs only while no result is stored |
| TaskImage.Page.DisplayEvaluation | task-image.py:82-158 | a pass on the last theme completes the task and ends the chapter; a pass earlier, then a press, moves to the next theme; a fail, then a press, retries; with no result, or with no press and no final pass, nothing changes; the index stays in the list |

## Left out

- Calls to OpenAI chat, Gemini, OpenAI and Google speech, and DALL-E are not modelled. Their outcomes are parameters: a reply, an evaluator function `ask`, an image URL. Network errors and the `st.error` messages are folded into `None`.
- `json.loads` is the parameter `parse`. Its `None` stands for both a parse error and an empty (falsy) result.
- Presentation is not modelled: HTML, CSS, markdown, avatars, audio playback, the typewriter effect, fade effects, loading indicators, sidebar toggling and `load_css`.
- `setTimeout` is not modelled as time. The door's two-second delay is the separate method `DoorTimerElapsed`. The automatic submission on the quiz screens (app.js:336-352) is not modelled.
- I/O is not modelled: `loadPrompts`, `loadApiKeys`, the API key dialog, `get_openai_api_key` and reading files. Prompts are constructor parameters. The third stage's prompt file is an `Option<string>` argument.
- The temperature settings are floating-point constants and are not modelled.
- Python's and JavaScript's whitespace sets are approximated by the characters listed in `Text.IsSpace`.
- Times are whole seconds. Sub-second clock values and `time.sleep` are not modelled.
- Each `st.rerun` is folded into the following render call.
- The `max_chars=2000` limit of the proposal text area (opening.py:209) is a widget limit and is not modelled.
- `display_patient_info` of the letter, diagnosis and spreadsheet tasks is static content and is not modelled.
- `display_kokoro_scene` is static content. Only the decision to show it is modelled.
- ending.py is static content and is not modelled.
- The speech played on the browser's final success screen is not modelled.
- `generate_image`'s own error message is not modelled. A drawing that does not come back is `Refused`.
- The error path of `evaluate_image` (task-image.py:79) is folded into `None` like the other failed calls.
- `app.js` replaces words with a global regular expression. The model uses a literal replace-all, which is the same here because no dictionary word contains a regular-expression metacharacter.
- A comment in the first stage's opening screen speaks of four digits. `Gate.CheckPin` follows the code, which checks six characters.
- Concurrent renders and browser sessions are not modelled. Each page object is one session.
- App.Game.HandleSubmit: treats one submission as an atomic step. In app.js `handleSubmit` has no guard across `await getChatResponse` (app.js:771), so a second submission made while the first reply is pending pushes its user entry first, giving user, user, assistant, assistant; the model does not capture that interleaving.
- Kokoro.Page.HandleSubmit: models the page's `handle_submit` (kokoro_assistant.py:265-308), which no widget on the page calls; the page creates no `user_input_field`, so calling it would raise `KeyError` at line 266. The chat box, `Kokoro.Page.ChatInput`, is the page's live input path.
