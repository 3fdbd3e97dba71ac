/**
 * The validator page (app.py) without its user interface: the three-step validation flow
 * that labels and merges the handler's answers, how a stored entry is displayed (the
 * derived "Defended" label), the JSON export filter, and the empty-question guard.
 */
module App {
  import opened Wrappers
  import opened Records
  import opened Text
  import opened Dicts
  import opened LlmHandler

  const AGREED_MESSAGE: string := "✅ Models agreed. No re-feedback needed."
  const REVISED_MESSAGE: string := "✅ Re-feedback complete. See final answers below."
  const EMPTY_QUESTION_MESSAGE: string := "Please enter a question."
  const ERROR_PREFIX: string := "An error occurred during validation: "

  // ---------------------------------------------------------------------------
  // process_validation
  // ---------------------------------------------------------------------------

  /** What one run of `process_validation` leaves in the session: the results (absent when
      the first step raised), the final message, whether the run completed, and the
      exception that ended it early, if any. */
  datatype Run = Run(results: Option<Dict<Entry>>, finalMessage: Option<string>, complete: bool, raised: Option<Exception>)

  /** Step 1's entry for one model: its initial answer labelled as the original, shown
      under its `name`. */
  function OriginalEntry(data: Entry): Entry {
    data + map["label" := Str("Original"), "label_class" := Str("original-label"), "display_name" := Get(data, "name", Null)]
  }

  /** The results after step 1: every initial entry labelled as the original, in the
      initial answers' order. */
  function Labelled(initial: Dict<Entry>): Dict<Entry> {
    Dict(initial.keys, map k | k in initial.items :: OriginalEntry(initial.items[k]))
  }

  /** Step 3's update of one entry: the prior content becomes `original_content`, then the
      revised answer and the "Revised" label are written over it. */
  function ReviseEntry(current: Entry, data: Entry): Entry {
    (if "content" in current then current["original_content" := current["content"]] else current)
    + data + map["label" := Str("Revised"), "label_class" := Str("revised-label")]
  }

  /** The results after step 3: revised entries updated in place, the others untouched.
      (Every revised name is a key of the results, so the lookup at app.py:153 never
      fails; see `RevisedAnswersKeys`.) */
  function ApplyRevisions(results: Dict<Entry>, revised: Dict<Entry>): Dict<Entry> {
    Dict(results.keys, map k | k in results.items ::
      if k in revised.items then ReviseEntry(results.items[k], revised.items[k]) else results.items[k])
  }

  /** The initial answers are a dictionary the judge can read. */
  lemma InitialJudgeable(b: Backends, models: seq<ModelRecord>, question: string)
    ensures InitialAnswers(b, models, question).Returned? ==> Judgeable(InitialAnswers(b, models, question).value)
  {
    if InitialAnswers(b, models, question).Returned? {
      InitialAnswersSpec(b, models, question);
      InitialAnswersShape(b, models, question);
    }
  }

  /** `process_validation` for a handler configured with `models` and the given judge. */
  function Process(b: Backends, models: seq<ModelRecord>, judgeApi: string, judgeModelId: string, question: string): Run {
    match InitialAnswers(b, models, question)
    case Raised(e) => Run(None, None, false, Some(e))
    case Returned(initial) =>
      InitialJudgeable(b, models, question);
      var results := Labelled(initial);
      if AreAnswersSimilar(b, judgeApi, judgeModelId, question, initial) then
        Run(Some(results), Some(AGREED_MESSAGE), true, None)
      else
        match RevisedAnswers(b, models, question, initial)
        case Raised(e) => Run(Some(results), None, false, Some(e))
        case Returned(revised) =>
          Run(Some(ApplyRevisions(results, revised)), Some(REVISED_MESSAGE), true, None)
  }

  /** The labelling loop of step 1 (app.py:135-136). */
  method LabelInitial(initial: Dict<Entry>) returns (results: Dict<Entry>)
    requires Valid(initial)
    ensures results == Labelled(initial)
  {
    results := Empty();
    var i := 0;
    while i < |initial.keys|
      invariant 0 <= i <= |initial.keys|
      invariant results.keys == initial.keys[..i]
      invariant results.items == map k | k in initial.keys[..i] :: OriginalEntry(initial.items[k])
      invariant Valid(results)
    {
      var name := initial.keys[i];
      assert initial.keys[..i + 1] == initial.keys[..i] + [name];
      assert name !in initial.keys[..i];
      results := Put(results, name, OriginalEntry(initial.items[name]));
      i := i + 1;
    }
    assert initial.keys[..i] == initial.keys;
  }

  /** The in-place update of one entry in step 3 (app.py:153-155). */
  method UpdateEntry(current: Entry, data: Entry) returns (entry: Entry)
    ensures entry == ReviseEntry(current, data)
  {
    entry := current;
    if "content" in entry {
      entry := entry["original_content" := entry["content"]];
    }
    entry := entry + data + map["label" := Str("Revised"), "label_class" := Str("revised-label")];
  }

  /** The in-place update loop of step 3 (app.py:152-155). */
  method ReviseResults(results: Dict<Entry>, revised: Dict<Entry>) returns (updated: Dict<Entry>)
    requires Valid(results) && Valid(revised) && revised.items.Keys <= results.items.Keys
    ensures updated == ApplyRevisions(results, revised)
  {
    updated := results;
    var j := 0;
    while j < |revised.keys|
      invariant 0 <= j <= |revised.keys|
      invariant Valid(updated) && updated.keys == results.keys
      invariant updated.items.Keys == results.items.Keys
      invariant forall k :: k in results.items ==>
        updated.items[k] == if k in revised.keys[..j] then ReviseEntry(results.items[k], revised.items[k]) else results.items[k]
    {
      var name := revised.keys[j];
      assert revised.keys[..j + 1] == revised.keys[..j] + [name];
      assert name !in revised.keys[..j];
      var entry := UpdateEntry(updated.items[name], revised.items[name]);
      updated := Put(updated, name, entry);
      j := j + 1;
    }
    assert revised.keys[..j] == revised.keys;
  }

  /** `process_validation`, run against the handler `h`. */
  method ProcessValidation(h: LLMHandler, b: Backends, question: string) returns (run: Run)
    ensures run == Process(b, h.models, h.judgeApi, h.judgeModelId, question)
  {
    var outcome := h.GetInitialAnswers(b, question);
    if outcome.Raised? {
      return Run(None, None, false, Some(outcome.exc));
    }
    var initial := outcome.value;
    var results := LabelInitial(initial);
    InitialJudgeable(b, h.models, question);
    if AreAnswersSimilar(b, h.judgeApi, h.judgeModelId, question, initial) {
      return Run(Some(results), Some(AGREED_MESSAGE), true, None);
    }
    var revision := h.GetRevisedAnswers(b, question, initial);
    if revision.Raised? {
      return Run(Some(results), None, false, Some(revision.exc));
    }
    RevisedAnswersKeys(b, h.models, question, initial);
    results := ReviseResults(results, revision.value);
    run := Run(Some(results), Some(REVISED_MESSAGE), true, None);
  }

  // ---------------------------------------------------------------------------
  // Properties of the validation flow
  // ---------------------------------------------------------------------------

  /** A step 1 entry keeps every initial key, gains the "Original" label, and is shown
      under its `name`. */
  lemma OriginalEntryFacts(data: Entry)
    ensures var e := OriginalEntry(data);
      && e.Keys == data.Keys + {"label", "label_class", "display_name"}
      && e["label"] == Str("Original") && e["label_class"] == Str("original-label")
      && e["display_name"] == Get(data, "name", Null)
      && forall key :: key in data && key != "label" && key != "label_class" && key != "display_name" ==> e[key] == data[key]
  {
  }

  /** Step 1 keeps the initial answers' keys and order and labels every entry. */
  lemma LabelledEntries(initial: Dict<Entry>)
    requires Valid(initial)
    ensures var d := Labelled(initial);
      && Valid(d) && d.keys == initial.keys && d.items.Keys == initial.items.Keys
      && forall k :: k in d.items ==> d.items[k] == OriginalEntry(initial.items[k])
  {
  }

  /** After step 1 every entry is labelled "Original" and shown under its model's name. */
  lemma InitialLabels(b: Backends, models: seq<ModelRecord>, question: string)
    ensures InitialAnswers(b, models, question).Returned? ==>
      var d := Labelled(InitialAnswers(b, models, question).value);
      forall k :: k in d.items ==>
        && d.items[k]["label"] == Str("Original")
        && d.items[k]["label_class"] == Str("original-label")
        && d.items[k]["display_name"] == Str(k)
  {
    if InitialAnswers(b, models, question).Returned? {
      InitialAnswersSpec(b, models, question);
      InitialAnswersShape(b, models, question);
      var initial := InitialAnswers(b, models, question).value;
      LabelledEntries(initial);
      forall k | k in initial.items {
        OriginalEntryFacts(initial.items[k]);
      }
    }
  }

  /** A revised entry records its prior content as `original_content` unless the revision
      itself carries one, and is labelled "Revised"; every other key comes from the
      revision when it has it, and from the prior entry otherwise. */
  lemma ReviseEntryFacts(prior: Entry, data: Entry)
    ensures var e := ReviseEntry(prior, data);
      && e["label"] == Str("Revised") && e["label_class"] == Str("revised-label")
      && e.Keys == prior.Keys + data.Keys + {"label", "label_class"} + (if "content" in prior then {"original_content"} else {})
      && ("original_content" in data ==> e["original_content"] == data["original_content"])
      && ("original_content" !in data && "content" in prior ==> e["original_content"] == prior["content"])
      && forall key :: key in e && key != "label" && key != "label_class" && key != "original_content" ==>
           e[key] == if key in data then data[key] else prior[key]
  {
  }

  /** Step 3 keeps the keys and order of the results, updates the revised entries and
      leaves the others untouched. */
  lemma ApplyRevisionsEntries(results: Dict<Entry>, revised: Dict<Entry>)
    requires Valid(results)
    ensures var d := ApplyRevisions(results, revised);
      && Valid(d) && d.keys == results.keys && d.items.Keys == results.items.Keys
      && (forall k :: k in d.items && k !in revised.items ==> d.items[k] == results.items[k])
      && (forall k :: k in d.items && k in revised.items ==> d.items[k] == ReviseEntry(results.items[k], revised.items[k]))
  {
  }

  /** The run of a handler whose initial answers returned and that the judge found similar:
      the results are exactly step 1's, and the final message reports agreement. */
  lemma AgreementKeepsOriginals(b: Backends, models: seq<ModelRecord>, judgeApi: string, judgeModelId: string, question: string)
    requires InitialAnswers(b, models, question).Returned?
    requires var initial := InitialAnswers(b, models, question).value;
      Judgeable(initial) && AreAnswersSimilar(b, judgeApi, judgeModelId, question, initial)
    ensures Process(b, models, judgeApi, judgeModelId, question)
         == Run(Some(Labelled(InitialAnswers(b, models, question).value)), Some(AGREED_MESSAGE), true, None)
  {
  }

  /** Only a failed first or third step ends a run early; the results then are absent, or
      step 1's, respectively. A run that completes reports agreement or revision. */
  lemma RunShapes(b: Backends, models: seq<ModelRecord>, judgeApi: string, judgeModelId: string, question: string)
    ensures var run := Process(b, models, judgeApi, judgeModelId, question);
      && (run.complete <==> run.raised.None?)
      && (run.complete ==> run.results.Some? && (run.finalMessage == Some(AGREED_MESSAGE) || run.finalMessage == Some(REVISED_MESSAGE)))
      && (!run.complete ==> run.finalMessage.None?)
      && (InitialAnswers(b, models, question).Raised? <==> run.results.None?)
      && (InitialAnswers(b, models, question).Raised? ==> run.raised == Some(KeyError("api")))
      && (run.raised.Some? && run.results.Some? ==>
            && run.results == Some(Labelled(InitialAnswers(b, models, question).value))
            && RevisedAnswers(b, models, question, InitialAnswers(b, models, question).value) == Raised(run.raised.value))
  {
  }

  /** The revision result a model's entry was merged with: that of the last task for its
      name. */
  function RevisionCall(b: Backends, models: seq<ModelRecord>, question: string, initial: Dict<Entry>, k: string): CallResult
    requires Plan(models, |models|, question, initial).Returned?
    requires k in TaskNames(Plan(models, |models|, question, initial).value)
  {
    var tasks := Plan(models, |models|, question, initial).value;
    Dispatch(b, tasks[LastIndex(TaskNames(tasks), k)])
  }

  /** A revision merged into a step 1 entry that had content: the entry is labelled
      "Revised" and keeps its initial content as `original_content`; a successful revision
      replaces the content, a failed one adds its error beside the initial content and the
      initial `success`. */
  lemma RevisedEntryFacts(k: string, prior: Entry, r: CallResult)
    requires InitialShape(k, prior) && "content" in prior
    ensures var e := ReviseEntry(OriginalEntry(prior), Revise(prior, r));
      && e["label"] == Str("Revised") && e["label_class"] == Str("revised-label")
      && e["original_content"] == prior["content"]
      && (r.Answered? ==> e["content"] == Str(r.content) && "error" !in e && e["success"] == Flag(true))
      && (r.Failed? ==> e["content"] == prior["content"] && e["error"] == Str(r.error) && e["success"] == Flag(true))
  {
    match r {
      case Answered(c) => RevisedEntryAnswered(k, prior, c);
      case Failed(err) => RevisedEntryFailed(k, prior, err);
    }
  }

  lemma RevisedEntryAnswered(k: string, prior: Entry, c: string)
    requires InitialShape(k, prior) && "content" in prior
    ensures var e := ReviseEntry(OriginalEntry(prior), Revise(prior, Answered(c)));
      && e["label"] == Str("Revised") && e["label_class"] == Str("revised-label")
      && e["original_content"] == prior["content"]
      && e["content"] == Str(c) && "error" !in e && e["success"] == Flag(true)
  {
    var o := OriginalEntry(prior);
    var data := prior + map["content" := Str(c), "original_content" := prior["content"]];
    assert Revise(prior, Answered(c)) == data;
    assert "error" !in o;
  }

  lemma RevisedEntryFailed(k: string, prior: Entry, err: string)
    requires InitialShape(k, prior) && "content" in prior
    ensures var e := ReviseEntry(OriginalEntry(prior), Revise(prior, Failed(err)));
      && e["label"] == Str("Revised") && e["label_class"] == Str("revised-label")
      && e["original_content"] == prior["content"]
      && e["content"] == prior["content"] && e["error"] == Str(err) && e["success"] == Flag(true)
  {
    var o := OriginalEntry(prior);
    var data := prior + map["error" := Str(err)];
    assert Revise(prior, Failed(err)) == data;
    assert o["content"] == prior["content"] && "original_content" !in data;
  }

  /** Step 3 hands an entry back the display name of its initial answer (its model's
      `display_name`, when the record has one; its name otherwise), and leaves every other
      initial key but `content` and `error` as it was. */
  lemma RevisedEntryKeeps(k: string, prior: Entry, r: CallResult)
    requires InitialShape(k, prior)
    ensures var e := ReviseEntry(OriginalEntry(prior), Revise(prior, r));
      && e["display_name"] == Get(prior, "display_name", Str(k))
      && forall key :: key in prior && key != "content" && key != "error" ==> e[key] == prior[key]
  {
    OriginalEntryFacts(prior);
    ReviseEntryFacts(OriginalEntry(prior), Revise(prior, r));
  }

  /** A run reports revision exactly when the initial answers and the revised answers
      both returned and the judge found the answers different; its results are then
      step 1's with the revisions applied. */
  lemma RevisingRun(b: Backends, models: seq<ModelRecord>, judgeApi: string, judgeModelId: string, question: string)
    ensures Process(b, models, judgeApi, judgeModelId, question).finalMessage == Some(REVISED_MESSAGE) <==>
      && InitialAnswers(b, models, question).Returned?
      && var initial := InitialAnswers(b, models, question).value;
      && Judgeable(initial) && !AreAnswersSimilar(b, judgeApi, judgeModelId, question, initial)
      && RevisedAnswers(b, models, question, initial).Returned?
      && Process(b, models, judgeApi, judgeModelId, question).results
           == Some(ApplyRevisions(Labelled(initial), RevisedAnswers(b, models, question, initial).value))
  {
    if InitialAnswers(b, models, question).Returned? {
      InitialJudgeable(b, models, question);
    }
  }

  /** After step 3 the entries of the scheduled models hold their revision merged into
      their step 1 entry; the other entries are as after step 1. */
  lemma RevisionOutcome(b: Backends, models: seq<ModelRecord>, question: string, k: string)
    ensures (&& InitialAnswers(b, models, question).Returned?
             && RevisedAnswers(b, models, question, InitialAnswers(b, models, question).value).Returned?
             && k in InitialAnswers(b, models, question).value.items) ==>
      var initial := InitialAnswers(b, models, question).value;
      var e := ApplyRevisions(Labelled(initial), RevisedAnswers(b, models, question, initial).value).items[k];
      && InitialShape(k, initial.items[k])
      && (k !in ScheduledNames(models, |models|, initial) ==> e == OriginalEntry(initial.items[k]))
      && (k in ScheduledNames(models, |models|, initial) ==>
            && k in TaskNames(Plan(models, |models|, question, initial).value)
            && "content" in initial.items[k]
            && e == ReviseEntry(OriginalEntry(initial.items[k]), Revise(initial.items[k], RevisionCall(b, models, question, initial, k))))
  {
    if !InitialAnswers(b, models, question).Returned? { return; }
    var initial := InitialAnswers(b, models, question).value;
    if !(RevisedAnswers(b, models, question, initial).Returned? && k in initial.items) { return; }
    InitialAnswersShape(b, models, question);
    InitialAnswersSpec(b, models, question);
    var revised := RevisedAnswers(b, models, question, initial).value;
    RevisedAnswersKeys(b, models, question, initial);
    LabelledEntries(initial);
    ApplyRevisionsEntries(Labelled(initial), revised);
    if k in revised.items {
      RevisedAnswersEntries(b, models, question, initial, k);
    }
  }

  // ---------------------------------------------------------------------------
  // Display of a stored entry (app.py:233-247)
  // ---------------------------------------------------------------------------

  /** What is shown for one entry: an error box, or a label badge over the content. */
  datatype Box = ErrorBox(error: Value) | AnswerBox(badge: Value, badgeClass: Value, content: Value)

  /** An entry's card: its heading and its box. */
  datatype Card = Card(heading: Value, box: Box)

  /** How the results page shows the entry of `name`. The "Defended" label is derived here
      and never stored: a revised entry whose content equals its `original_content`
      (which falls back to the content itself). An entry with neither `error` nor `content`
      raises at app.py:247. */
  function Display(name: string, e: Entry): Outcome<Card> {
    var heading := Get(e, "display_name", Str(name));
    if "error" in e then Returned(Card(heading, ErrorBox(e["error"])))
    else
      var stored := Get(e, "label", Str("Answer"));
      var storedClass := Get(e, "label_class", Str("original-label"));
      var original := Get(e, "original_content", Get(e, "content", Null));
      var defended := stored == Str("Revised") && Get(e, "content", Null) == original;
      if "content" !in e then Raised(KeyError("content"))
      else if defended then Returned(Card(heading, AnswerBox(Str("Defended"), Str("defended-label"), e["content"])))
      else Returned(Card(heading, AnswerBox(stored, storedClass, e["content"])))
  }

  /** An error is shown whenever the entry has one, whatever else it holds. */
  lemma ErrorShownFirst(name: string, e: Entry)
    requires "error" in e
    ensures Display(name, e).Returned? && Display(name, e).value.box == ErrorBox(e["error"])
    ensures "content" in e ==> Display(name, e).value.box.ErrorBox?
  {
  }

  /** An entry without an error shows its own content under the "Defended" label iff it is
      labelled "Revised" and its content equals its `original_content` (or it has none);
      otherwise under its stored label, or "Answer" when it has none. */
  lemma DefendedIff(name: string, e: Entry)
    requires "error" !in e && "content" in e
    ensures Display(name, e).Returned? && Display(name, e).value.box.AnswerBox?
    ensures var box, stored := Display(name, e).value.box, Get(e, "label", Str("Answer"));
      && box.content == e["content"]
      && (stored == Str("Revised") && e["content"] == Get(e, "original_content", e["content"]) ==>
            box.badge == Str("Defended") && box.badgeClass == Str("defended-label"))
      && (!(stored == Str("Revised") && e["content"] == Get(e, "original_content", e["content"])) ==>
            box.badge == stored && box.badgeClass == Get(e, "label_class", Str("original-label")))
  {
  }

  /** What every stored entry holds after a run: its name, and a label that is
      "Original" or "Revised" with its class. */
  ghost predicate Stored(e: Entry) {
    && "name" in e && "label" in e && "label_class" in e
    && (e["label"] == Str("Original") || e["label"] == Str("Revised"))
  }

  /** A run's results are step 1's, possibly with the revisions applied. */
  lemma RunResults(b: Backends, models: seq<ModelRecord>, judgeApi: string, judgeModelId: string, question: string)
    ensures Process(b, models, judgeApi, judgeModelId, question).results.Some? ==> InitialAnswers(b, models, question).Returned?
    ensures Process(b, models, judgeApi, judgeModelId, question).results.Some? ==>
      var initial, d := InitialAnswers(b, models, question).value, Process(b, models, judgeApi, judgeModelId, question).results.value;
      || d == Labelled(initial)
      || (RevisedAnswers(b, models, question, initial).Returned? && d == ApplyRevisions(Labelled(initial), RevisedAnswers(b, models, question, initial).value))
  {
  }

  /** Every stored entry after a run holds its name and an "Original" or "Revised" label:
      "Defended" is never stored. */
  lemma StoredLabels(b: Backends, models: seq<ModelRecord>, judgeApi: string, judgeModelId: string, question: string)
    ensures Process(b, models, judgeApi, judgeModelId, question).results.Some? ==>
      var d := Process(b, models, judgeApi, judgeModelId, question).results.value;
      forall k :: k in d.items ==> Stored(d.items[k])
  {
    RunResults(b, models, judgeApi, judgeModelId, question);
    if InitialAnswers(b, models, question).Raised? {
      return;
    }
    var initial := InitialAnswers(b, models, question).value;
    InitialAnswersShape(b, models, question);
    LabelledEntries(initial);
    forall k | k in initial.items ensures Stored(Labelled(initial).items[k]) {
      OriginalEntryFacts(initial.items[k]);
    }
    if RevisedAnswers(b, models, question, initial).Returned? {
      var revised := RevisedAnswers(b, models, question, initial).value;
      ApplyRevisionsEntries(Labelled(initial), revised);
      forall k | k in revised.items && k in initial.items ensures Stored(ReviseEntry(Labelled(initial).items[k], revised.items[k])) {
        ReviseEntryFacts(Labelled(initial).items[k], revised.items[k]);
      }
    }
  }

  /** How a revised run shows a scheduled model: the revision's error when it failed;
      otherwise its new content, labelled "Defended" iff it equals the initial content. */
  lemma RevisedDisplay(k: string, prior: Entry, r: CallResult)
    requires InitialShape(k, prior) && "content" in prior
    ensures var shown := Display(k, ReviseEntry(OriginalEntry(prior), Revise(prior, r)));
      && shown.Returned?
      && (r.Failed? ==> shown.value.box == ErrorBox(Str(r.error)))
      && (r.Answered? ==> shown.value.box.AnswerBox? && shown.value.box.content == Str(r.content))
      && (r.Answered? ==> (shown.value.box.badge == Str("Defended") <==> Str(r.content) == prior["content"]))
      && (r.Answered? ==> (shown.value.box.badge == Str("Revised") <==> Str(r.content) != prior["content"]))
  {
    RevisedEntryFacts(k, prior, r);
  }

  /** How a model's initial answer is shown when it was not revised: its error, or its
      content under the "Original" label. */
  lemma OriginalDisplay(k: string, prior: Entry)
    requires InitialShape(k, prior)
    ensures var shown := Display(k, OriginalEntry(prior));
      && shown.Returned? && shown.value.heading == Str(k)
      && ("error" in prior ==> shown.value.box == ErrorBox(prior["error"]))
      && ("content" in prior ==> shown.value.box == AnswerBox(Str("Original"), Str("original-label"), prior["content"]))
  {
    OriginalEntryFacts(prior);
  }

  // ---------------------------------------------------------------------------
  // Export (app.py:252-256)
  // ---------------------------------------------------------------------------

  /** The keys the export drops. */
  predicate Internal(key: string) {
    key == "label_class" || key == "api" || key == "model_id"
  }

  /** One exported entry. */
  function StripInternal(e: Entry): Entry {
    map key | key in e && !Internal(key) :: e[key]
  }

  /** The exported results: the same names in the same order, each entry stripped. */
  function ExportResults(results: Dict<Entry>): Dict<Entry> {
    Dict(results.keys, map k | k in results.items :: StripInternal(results.items[k]))
  }

  /** The saved package; the timestamp is supplied by the caller. */
  datatype ResultsPackage = ResultsPackage(question: string, finalAnswers: Dict<Entry>, timestamp: string)

  function Package(question: string, results: Dict<Entry>, timestamp: string): (p: ResultsPackage)
    ensures p.question == question && p.timestamp == timestamp
  {
    ResultsPackage(question, ExportResults(results), timestamp)
  }

  /** The export keeps the names and their order, and exactly the non-internal keys of each
      entry with their values. */
  lemma ExportKeeps(results: Dict<Entry>)
    ensures var x := ExportResults(results);
      && x.keys == results.keys && x.items.Keys == results.items.Keys
      && (Valid(results) ==> Valid(x))
      && forall k, key :: k in results.items ==>
           (key in x.items[k] <==> key in results.items[k] && !Internal(key))
           && (key in x.items[k] ==> x.items[k][key] == results.items[k][key])
  {
  }

  /** Exporting twice is exporting once. */
  lemma ExportIdempotent(results: Dict<Entry>)
    ensures ExportResults(ExportResults(results)) == ExportResults(results)
  {
    var x := ExportResults(results);
    forall k | k in x.items ensures StripInternal(x.items[k]) == x.items[k] {
      assert StripInternal(x.items[k]).Keys == x.items[k].Keys;
    }
  }

  /** The export of a run's results holds, for every model, its name and label and no
      internal key. */
  lemma ExportOfRun(b: Backends, models: seq<ModelRecord>, judgeApi: string, judgeModelId: string, question: string, timestamp: string)
    ensures Process(b, models, judgeApi, judgeModelId, question).results.Some? ==>
      var d := Process(b, models, judgeApi, judgeModelId, question).results.value;
      var p := Package(question, d, timestamp);
      && p.question == question && p.finalAnswers.keys == d.keys
      && forall k :: k in p.finalAnswers.items ==>
           && "label" in p.finalAnswers.items[k] && "name" in p.finalAnswers.items[k]
           && "api" !in p.finalAnswers.items[k] && "model_id" !in p.finalAnswers.items[k] && "label_class" !in p.finalAnswers.items[k]
  {
    StoredLabels(b, models, judgeApi, judgeModelId, question);
    if Process(b, models, judgeApi, judgeModelId, question).results.Some? {
      ExportKeeps(Process(b, models, judgeApi, judgeModelId, question).results.value);
    }
  }

  // ---------------------------------------------------------------------------
  // The validate button (app.py:188-207)
  // ---------------------------------------------------------------------------

  /** `not question.strip()` */
  predicate IsBlank(question: string) {
    Strip(question) == []
  }

  /** A question is blank iff it is empty or all whitespace. */
  lemma BlankIffAllSpace(question: string)
    ensures IsBlank(question) <==> AllSpace(question)
  {
    StripEmptyIffAllSpace(question);
  }

  /** What pressing the validate button does: reject a blank question, or run the
      validation and report the exception that ended it, if any. */
  datatype Click = Rejected(message: string) | Started(question: string, run: Run, error: Option<string>)

  /** `f"An error occurred during validation: {e}"` for a `KeyError`, whose text is its
      key in quotes. */
  function ErrorText(e: Exception): string {
    ERROR_PREFIX + "'" + e.key + "'"
  }

  function OnValidate(b: Backends, models: seq<ModelRecord>, judgeApi: string, judgeModelId: string, question: string): Click {
    if IsBlank(question) then Rejected(EMPTY_QUESTION_MESSAGE)
    else
      var run := Process(b, models, judgeApi, judgeModelId, question);
      Started(question, run, if run.raised.Some? then Some(ErrorText(run.raised.value)) else None)
  }

  /** A blank question is rejected before anything is called: the outcome does not depend
      on the backends. Any other question starts a run whose error is reported exactly when
      it did not complete. */
  lemma GuardRejectsBlank(b1: Backends, b2: Backends, models: seq<ModelRecord>, judgeApi: string, judgeModelId: string, question: string)
    ensures AllSpace(question) ==>
      OnValidate(b1, models, judgeApi, judgeModelId, question) == OnValidate(b2, models, judgeApi, judgeModelId, question) == Rejected(EMPTY_QUESTION_MESSAGE)
    ensures !AllSpace(question) ==>
      && OnValidate(b1, models, judgeApi, judgeModelId, question).Started?
      && OnValidate(b1, models, judgeApi, judgeModelId, question).run == Process(b1, models, judgeApi, judgeModelId, question)
      && (OnValidate(b1, models, judgeApi, judgeModelId, question).error.Some? <==> !Process(b1, models, judgeApi, judgeModelId, question).complete)
  {
    BlankIffAllSpace(question);
    RunShapes(b1, models, judgeApi, judgeModelId, question);
  }

  /** The validate button, run against the handler `h`. */
  method Validate(h: LLMHandler, b: Backends, question: string) returns (click: Click)
    ensures click == OnValidate(b, h.models, h.judgeApi, h.judgeModelId, question)
  {
    if IsBlank(question) {
      return Rejected(EMPTY_QUESTION_MESSAGE);
    }
    var run := ProcessValidation(h, b, question);
    var error := None;
    if run.raised.Some? {
      error := Some(ErrorText(run.raised.value));
    }
    click := Started(question, run, error);
  }
}
