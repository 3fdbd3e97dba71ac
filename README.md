# Cross-LLM Validator: the consensus workflow in Dafny

The validator asks several LLM backends the same question and collects their answers.
A judge model then decides whether the answers agree. If they do not, each model sees the
other's answer and is asked to defend or revise its own. The web page labels each answer
Original or Revised, and shows Defended when a revision kept the answer unchanged.

This project models the deterministic part of that workflow:

- the model registry of `LLMHandler`;
- dispatch of a call by API tag;
- assembly of the initial answers;
- the judge's verdict;
- planning and merging of the revision round;
- the page's labelling, display rule, export filter and question guard.

Provider calls are not made. Each provider is a function from the call's arguments to a
reply, carried in `Backends`. Everything else is computed from those replies.

Modules follow the program:

| module | contents |
|---|---|
| `Wrappers` | `Option` |
| `Records` | values, entries, call results, model records, `KeyError` |
| `Text` | `str.strip`, `str.upper`, `str.join` |
| `Dicts` | Python's insertion-ordered `dict` |
| `LlmHandler` | llm_handler.py, with `class LLMHandler` over its `models` field |
| `App` | app.py's `process_validation` and the page logic |

Modelling choices:

- **Entries.** An answer entry is a map from keys to values. A right-biased merge
  `{**a, **b}` is `a + b`.
- **Ordered dicts.** A dictionary of entries is a `Dict`: its keys in insertion order plus
  its items. The loops that fill dictionaries are methods proved against `FromPairs`, the
  dictionary that assigning the pairs one after the other builds.
- **Missing keys.** A missing key raises `KeyError`. Results are an `Outcome`, which is
  either `Returned` or `Raised`. This happens in these places:
  - a record added by `add_model` has no `api`, which the initial round reads at
    llm_handler.py:70 and the revision round at llm_handler.py:112;
  - an initial entry without `content` is read by the revision prompt
    (llm_handler.py:107-108);
  - `App.Display` shows an entry that has neither `error` nor `content`, whose
    `answer_data['content']` raises (app.py:247).

Where the documented protocol and the code differ, the model follows the code:

- An initial entry without `content` is not skipped by the revision round. It raises
  `KeyError('content')` (llm_handler.py:107-108).
- A failed revision does not clear `content`. The entry keeps its first-round `content` and
  `success: True` and gains an `error`. The page shows the error (app.py:236).
- `original_content` is written whenever the entry had content, including when the
  revision failed.
- "Defended" is never stored. It is derived only when an entry is displayed
  (app.py:239-244).

## Model

| member | source | states |
|---|---|---|
| Records.ResultDict | llm_handler.py:39-41 | a success result holds exactly `success: True` and `content`; a failure holds exactly `success: False` and `error` |
| Records.RecordDict | llm_handler.py:25-28 | a record's dictionary holds `name` and `model_id`, holds `api` iff the record has one, and holds `display_name` iff it has one |
| Text.Strip | llm_handler.py:95 | the stripped text is no longer than the input and neither starts nor ends with whitespace |
| Text.TrimStartSkips | llm_handler.py:95 | stripping leading whitespace removes exactly the whitespace prefix |
| Text.TrimEndSkips | llm_handler.py:95 | stripping trailing whitespace removes exactly the whitespace suffix |
| Text.StripExact | llm_handler.py:95 | whitespace around a trimmed text is all that `strip` removes |
| Text.StripEmptyIffAllSpace | app.py:189 | a text strips to empty iff every character is whitespace |
| Text.Upper | llm_handler.py:95 | upper-casing keeps the length and maps each character |
| Text.UpperCharTo | llm_handler.py:95 | exactly y/Y upper-case to Y, e/E to E, and s/S/long s to S |
| Text.UpperYes | llm_handler.py:95 | a text upper-cases to "YES" iff it spells y, e, s in any case |
| Text.IsYesLetters | llm_handler.py:95 | a reply means agreement iff, stripped, it is the three letters y, e, s in any case |
| Text.IsYesPadded | llm_handler.py:95 | surrounding whitespace never changes the judge's verdict |
| Text.JoinAppend | llm_handler.py:49 | joining two non-empty lists puts one separator between them |
| Text.IsYes | llm_handler.py:95 | the judge's test `strip().upper() == "YES"`; it has no contract of its own, and `Text.IsYesLetters` and `Text.IsYesPadded` state what it accepts |
| Dicts.Put | llm_handler.py:76 | assignment appends a new key, keeps an existing key's position, and replaces its value |
| Dicts.FromPairs | llm_handler.py:73-76 | the dictionary built by a sequence of assignments lists each key once, and its items are exactly those keys |
| Dicts.FromPairsKeys | llm_handler.py:73-76 | repeated assignment keeps each distinct key once, in first-assignment order |
| Dicts.FromPairsLookup | llm_handler.py:73-76 | a key holds the value of its last assignment |
| LlmHandler.MakeApiCall | llm_handler.py:59-66 | "openai" goes to the OpenAI adapter, "gemini" to the Gemini adapter, and any other tag fails with "Unknown API: " and the tag |
| LlmHandler.CallOpenAI | llm_handler.py:32-41 | the OpenAI adapter turns a completion into a success and an exception into a failure prefixed "OpenAI Error: "; no contract of its own, stated by `LlmHandler.MakeApiCall` and `LlmHandler.FailuresAreTagged` |
| LlmHandler.CallGemini | llm_handler.py:43-57 | the Gemini adapter sends the flattened prompt and prefixes failures with "Gemini Error: "; no contract of its own, stated by `LlmHandler.MakeApiCall`, `LlmHandler.FailuresAreTagged` and `LlmHandler.FlattenPromptFacts` |
| LlmHandler.DispatchUsesOneAdapter | llm_handler.py:59-66 | the result depends only on the adapter the tag selects; an unknown tag depends on no adapter |
| LlmHandler.FailuresAreTagged | llm_handler.py:41 | every failure message starts with "OpenAI Error: ", "Gemini Error: " or "Unknown API: " |
| LlmHandler.UserContentsAppend | llm_handler.py:48 | keeping user contents distributes over concatenated message lists |
| LlmHandler.FlattenPrompt | llm_handler.py:48-49 | the Gemini prompt; no contract of its own, stated by `LlmHandler.FlattenPromptFacts` |
| LlmHandler.FlattenPromptFacts | llm_handler.py:48-49 | one user message flattens to its content; a non-user message adds nothing; a further user message adds the two-character separator and its content |
| LlmHandler.Fanout | llm_handler.py:70-71 | one call result per configured model |
| LlmHandler.InitialPairs | llm_handler.py:74-76 | the assignments name the models in configuration order |
| LlmHandler.InitialAnswers | llm_handler.py:68-77 | the initial round raises KeyError('api') iff some record has no `api` |
| LlmHandler.InitialAnswersSpec | llm_handler.py:68-77 | one entry per distinct configured name, in configuration order; each entry is the result of its name's last model overlaid by that model's record |
| LlmHandler.InitialAnswersShape | llm_handler.py:73-76 | every initial entry carries its own name and holds content exactly when it holds no error |
| LlmHandler.MergedShape | llm_handler.py:76 | a call result overlaid by a record has that shape |
| LlmHandler.ContentKeys | llm_handler.py:80 | the keys kept are exactly those whose entries hold `content` |
| LlmHandler.ContentKeysAppend | llm_handler.py:80 | the content filter keeps iteration order: it distributes over concatenated key lists |
| LlmHandler.AnswerList | llm_handler.py:80 | one answer text per content entry, in iteration order |
| LlmHandler.JudgePrompt | llm_handler.py:84-91 | the judge's prompt text around the question and two answers; no contract of its own, its use stated by `LlmHandler.JudgeDecides` |
| LlmHandler.FewAnswersAgree | llm_handler.py:80-82 | with fewer than two content entries the verdict is "similar", whatever any backend would reply |
| LlmHandler.JudgeDecides | llm_handler.py:84-95 | with two or more content entries, the prompt names the first two; the verdict is true iff the judge answered and its reply means YES; a failed judge call gives false |
| LlmHandler.AreAnswersSimilar | llm_handler.py:79-95 | the judge's verdict; no contract of its own, stated by `LlmHandler.FewAnswersAgree`, `LlmHandler.JudgeDecides` and `LlmHandler.FirstTwoDecide` |
| LlmHandler.FirstTwoDecide | llm_handler.py:80-91 | two answer sets that agree on their first two content entries get the same verdict |
| LlmHandler.Counterpart | llm_handler.py:101 | there is no counterpart iff every model has the same name; a counterpart is a configured model with a different name |
| LlmHandler.CounterpartIsFirst | llm_handler.py:101 | the counterpart is the first model in list order with a different name |
| LlmHandler.FeedbackPrompt | llm_handler.py:106-109 | the revision prompt around the question, the model's own answer and the other's; no contract of its own, its use stated by `LlmHandler.DefaultModelsBothRevised` |
| LlmHandler.PlanOne | llm_handler.py:100-113 | a pass adds no call iff the model is not scheduled, raises iff a scheduled model lacks content or `api`, and otherwise sets up the model's own call |
| LlmHandler.Plan | llm_handler.py:98-113 | every planned call is for a name whose initial entry holds content |
| LlmHandler.PlanRaises | llm_handler.py:98-113 | the planning raises iff some model's pass raises |
| LlmHandler.PlanRaisedStays | llm_handler.py:98-113 | once a pass raises, the loop ends with that exception |
| LlmHandler.PlanSchedules | llm_handler.py:98-113 | planning that does not raise sets up exactly one call per scheduled model, in list order |
| LlmHandler.ScheduledNamesMembers | llm_handler.py:99-104 | a name is scheduled iff a model of that name has a counterpart and both names are initial keys |
| LlmHandler.TaskNames | llm_handler.py:113 | the names of the planned calls, in order |
| LlmHandler.FailedInitialBreaksRevision | llm_handler.py:106-108 | a scheduled model whose initial call failed makes the revision round raise, whatever the backends would reply |
| LlmHandler.DefaultModelsBothRevised | llm_handler.py:99-113 | with the two default models and content in both entries, each model gets one call, with its own record and a prompt holding its own answer and then the other's |
| LlmHandler.Revise | llm_handler.py:119-123 | success replaces `content` and records the old content as `original_content`; failure adds `error` and keeps every other key, including the old content |
| LlmHandler.Gather | llm_handler.py:115 | the results line up with the planned calls |
| LlmHandler.MergePairs | llm_handler.py:117-123 | each planned name is paired with its entry merged with its own result |
| LlmHandler.MergeRevisions | llm_handler.py:117-125 | the merging loop builds the dictionary that assigning those pairs builds |
| LlmHandler.RevisedAnswersKeys | llm_handler.py:97-125 | the revised answers hold one entry per distinct scheduled name, in list order, and every one of them is an initial key whose entry has content |
| LlmHandler.RevisedAnswersEntries | llm_handler.py:117-123 | each revised entry is the initial entry merged with the result of the last call for its name |
| LlmHandler.RevisedAnswers | llm_handler.py:97-125 | the revision round; no contract of its own, stated by `LlmHandler.PlanRaises`, `LlmHandler.RevisedAnswersKeys`, `LlmHandler.RevisedAnswersEntries` and `LlmHandler.FailedInitialBreaksRevision` |
| LlmHandler.Without | llm_handler.py:143 | removal drops every record with the name and keeps the others |
| LlmHandler.WithoutAppend | llm_handler.py:143 | removal keeps the remaining records in order |
| LlmHandler.WithoutAbsent | llm_handler.py:143 | removing an absent name changes nothing |
| LlmHandler.LLMHandler.constructor | llm_handler.py:25-30 | the two default models and the judge `gpt-4o-mini` on `openai` |
| LlmHandler.LLMHandler.GetModelsList | llm_handler.py:127-128 | the configured records, in order |
| LlmHandler.LLMHandler.AddModel | llm_handler.py:130-139 | appends one record without `api`, whose display name defaults to the name |
| LlmHandler.LLMHandler.RemoveModel | llm_handler.py:141-143 | the new list holds no record with the name and keeps every other record in order |
| LlmHandler.LLMHandler.GetInitialAnswers | llm_handler.py:68-77 | the loop raises iff some record lacks `api`; otherwise it returns the initial answers, keyed by the distinct names in order |
| LlmHandler.LLMHandler.PlanPass | llm_handler.py:99-113 | one pass of the planning loop decides as `PlanOne` does |
| LlmHandler.LLMHandler.GetRevisedAnswers | llm_handler.py:97-125 | both loops compute the revised answers, keyed by the distinct scheduled names in order |
| App.InitialJudgeable | app.py:142 | the judge can read the initial answers: every content entry has a name |
| App.OriginalEntry | app.py:136 | step 1's entry for one model; no contract of its own, stated by `App.OriginalEntryFacts` |
| App.Labelled | app.py:135-136 | the results after step 1; no contract of its own, stated by `App.LabelledEntries` and `App.InitialLabels` |
| App.ReviseEntry | app.py:153-155 | step 3's update of one entry; no contract of its own, stated by `App.ReviseEntryFacts` |
| App.ApplyRevisions | app.py:152-155 | the results after step 3; no contract of its own, stated by `App.ApplyRevisionsEntries` |
| App.Process | app.py:127-161 | the validation flow; no contract of its own, stated by `App.AgreementKeepsOriginals`, `App.RunShapes`, `App.RevisingRun` and `App.RevisionOutcome` |
| App.LabelInitial | app.py:135-136 | the labelling loop builds step 1's results |
| App.UpdateEntry | app.py:153-155 | the in-place update of one entry computes the revised entry |
| App.ReviseResults | app.py:152-155 | the update loop applies every revision and leaves the other entries as they were |
| App.ProcessValidation | app.py:127-161 | the method leaves the results, final message, completion flag and exception of the validation flow |
| App.OriginalEntryFacts | app.py:136 | a step 1 entry keeps every initial key, is labelled Original with class original-label, and has display_name equal to its `name` |
| App.LabelledEntries | app.py:135-136 | step 1 keeps the initial keys and their order and labels every entry |
| App.InitialLabels | app.py:135-136 | after step 1 every entry is labelled Original and its display_name is the model's name |
| App.ReviseEntryFacts | app.py:153-155 | a revised entry is labelled Revised and records its prior content as `original_content` unless the revision carries one; every other key comes from the revision, or failing that from the prior entry |
| App.ApplyRevisionsEntries | app.py:152-155 | step 3 keeps the keys and their order, updates the revised entries, and leaves the others untouched |
| App.AgreementKeepsOriginals | app.py:145-147 | when the judge finds the answers similar, the results are exactly step 1's and the message reports agreement |
| App.RunShapes | app.py:127-161 | a run completes iff nothing raised, and then reports agreement or revision; a failed first step leaves no results; a failed revision round leaves step 1's results |
| App.RevisingRun | app.py:145-158 | a run reports revision iff the initial answers returned, the judge found them different and the revision round returned; its results are step 1's with the revisions applied |
| App.RevisionOutcome | app.py:150-155 | each scheduled model's entry is its revision merged into its step 1 entry; every other entry is as after step 1 |
| App.RevisedEntryFacts | app.py:153-155 | a revised entry is labelled Revised with its initial content as `original_content`; success replaces the content; failure keeps the content and `success: True` beside the error |
| App.RevisedEntryAnswered | app.py:153-155 | after a successful revision the entry holds the new content, no error, and its initial content as `original_content` |
| App.RevisedEntryFailed | app.py:153-155 | after a failed revision the entry holds its initial content, its initial content as `original_content`, and the error |
| App.RevisedEntryKeeps | app.py:155 | a revised entry keeps every other initial key, and takes back the display name of its initial entry |
| App.ErrorShownFirst | app.py:236-237 | an entry with an error is shown as that error, even when it also has content |
| App.DefendedIff | app.py:238-247 | an entry without an error shows its own content, labelled Defended iff it is labelled Revised and its content equals its `original_content` (falling back to the content); otherwise its stored label is shown |
| App.Display | app.py:233-247 | how one stored entry is shown; no contract of its own, stated by `App.ErrorShownFirst`, `App.DefendedIff`, `App.RevisedDisplay` and `App.OriginalDisplay` |
| App.RunResults | app.py:135-155 | a run's results are step 1's, possibly with the revisions applied |
| App.StoredLabels | app.py:135-155 | every stored entry has a name and is labelled Original or Revised; Defended is never stored |
| App.RevisedDisplay | app.py:236-247 | a failed revision is shown as its error; a successful one shows the new content, labelled Defended iff it equals the initial content and Revised otherwise |
| App.OriginalDisplay | app.py:235-247 | an unrevised entry is shown under its name as its error, or as its content labelled Original |
| App.ExportKeeps | app.py:254 | the export keeps every name and its order, and exactly the keys other than label_class, api and model_id, with their values |
| App.ExportIdempotent | app.py:254 | exporting an export changes nothing |
| App.StripInternal | app.py:254 | one entry with its internal keys removed; no contract of its own, stated by `App.ExportKeeps` |
| App.ExportResults | app.py:254 | the saved results; no contract of its own, stated by `App.ExportKeeps`, `App.ExportIdempotent` and `App.ExportOfRun` |
| App.Package | app.py:255 | the package carries the question and the timestamp it was given |
| App.ExportOfRun | app.py:254-255 | the saved results of a run keep every model's name and label and hold no internal key |
| App.BlankIffAllSpace | app.py:189 | a question is rejected iff it is empty or all whitespace |
| App.GuardRejectsBlank | app.py:188-207 | a blank question is rejected whatever the backends would reply; any other question starts a run whose error is reported iff the run did not complete |
| App.OnValidate | app.py:188-207 | the button handler; no contract of its own, stated by `App.GuardRejectsBlank` and `App.Validate` |
| App.Validate | app.py:188-207 | the button handler rejects or runs as the guard decides |

## Left out

- The page itself is not modelled: the Streamlit layout, CSS, sidebar, example buttons,
  progress bar, `display_answers`, `st.rerun` and the download button (app.py:8-125,
  163-260 apart from the cited logic). What remains of the session state is the `Run`
  value: results, final message, completion flag, and the exception that ended the run.
- The OpenAI and Gemini SDK calls (llm_handler.py:32-57) are functions supplied in
  `Backends`. They return a text or throw with a message. So a call gives the same reply
  for the same arguments, and a reply's content is never `None`.
- `asyncio.gather` and `asyncio.to_thread` are concurrency. They are modelled as a
  sequential map whose results line up with the calls.
- Loading `.env` and the `ValueError` for a missing API key (llm_handler.py:9-23) are
  environment I/O. So is `get_llm_handler` returning `None`. The constructor keeps
  only the model list and the judge.
- The temperatures 0.7 and 0 are opaque `real` constants passed to the backends.
- `time.strftime`, `time.time` and `json.dumps` (app.py:255-256) are clock and
  serialisation I/O. The timestamp is an input, and the package is a value, not JSON text.
- Text.Upper covers only ASCII letters and U+017F. No other character upper-cases to a
  letter of "YES", so the comparison at llm_handler.py:95 is exact. Other upper-cased
  text is not.
- The key order inside one entry is not modelled (`Entry` is an unordered map). It shows
  only in the order of keys in the JSON file.
- `get_models_list` returns a shallow copy. Records are values here, so changing a
  returned record dictionary would not reach the handler.
- The only exception modelled is `KeyError`. `ErrorText` renders that exception's text,
  the key in quotes. No other exception can come from the modelled code.

