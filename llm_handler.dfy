/**
 * The orchestration half of the validator (llm_handler.py): the model registry, dispatch
 * by API tag, the initial fan-out, the judge verdict and the revision round. Every network
 * call is replaced by the reply a supplied backend gives.
 */
module LlmHandler {
  import opened Wrappers
  import opened Records
  import opened Text
  import opened Dicts

  /** The sampling temperatures; the logic never looks at them. */
  const DEFAULT_TEMPERATURE: real := 0.7
  const JUDGE_TEMPERATURE: real := 0.0

  /** What a provider SDK hands back: the completion text, or the message of the
      exception it raised. */
  datatype SdkReply = Completion(text: string) | Threw(message: string)

  /** The two provider SDKs, seen as the reply each gives to a request. The OpenAI SDK
      receives the role-tagged messages, the Gemini SDK one flattened prompt. */
  datatype Backends = Backends(
    openai: (string, seq<Message>, real) -> SdkReply,
    gemini: (string, string, real) -> SdkReply)

  // ---------------------------------------------------------------------------
  // Provider adapters and dispatch
  // ---------------------------------------------------------------------------

  /** `_call_openai`: any exception becomes a failure tagged with the backend's name. */
  function CallOpenAI(b: Backends, modelId: string, messages: seq<Message>, temp: real): CallResult {
    match b.openai(modelId, messages, temp)
    case Completion(t) => Answered(t)
    case Threw(e) => Failed("OpenAI Error: " + e)
  }

  /** The contents of the `user` messages, in order. */
  function UserContents(messages: seq<Message>): seq<string> {
    if messages == [] then []
    else (if messages[0].role == "user" then [messages[0].content] else []) + UserContents(messages[1..])
  }

  /** The Gemini prompt: the user contents joined by the two characters backslash and n. */
  function FlattenPrompt(messages: seq<Message>): string {
    Join("\\n", UserContents(messages))
  }

  /** `_call_gemini_sync`: the messages are flattened, then sent; any exception becomes a
      failure tagged with the backend's name. */
  function CallGemini(b: Backends, modelId: string, messages: seq<Message>, temp: real): CallResult {
    match b.gemini(modelId, FlattenPrompt(messages), temp)
    case Completion(t) => Answered(t)
    case Threw(e) => Failed("Gemini Error: " + e)
  }

  /** `_make_api_call`: route by API tag; an unknown tag fails without calling anything. */
  function MakeApiCall(b: Backends, api: string, modelId: string, messages: seq<Message>, temp: real): (r: CallResult)
    ensures api == "openai" ==> r == CallOpenAI(b, modelId, messages, temp)
    ensures api == "gemini" ==> r == CallGemini(b, modelId, messages, temp)
    ensures api != "openai" && api != "gemini" ==> r == Failed("Unknown API: " + api)
  {
    if api == "openai" then CallOpenAI(b, modelId, messages, temp)
    else if api == "gemini" then CallGemini(b, modelId, messages, temp)
    else Failed("Unknown API: " + api)
  }

  /** A call reaches only the adapter its tag names: the other adapter's behaviour cannot
      change the result, and for an unknown tag neither adapter's can. */
  lemma DispatchUsesOneAdapter(b1: Backends, b2: Backends, api: string, modelId: string, messages: seq<Message>, temp: real)
    ensures api == "openai" && b1.openai == b2.openai ==>
      MakeApiCall(b1, api, modelId, messages, temp) == MakeApiCall(b2, api, modelId, messages, temp)
    ensures api == "gemini" && b1.gemini == b2.gemini ==>
      MakeApiCall(b1, api, modelId, messages, temp) == MakeApiCall(b2, api, modelId, messages, temp)
    ensures api != "openai" && api != "gemini" ==>
      MakeApiCall(b1, api, modelId, messages, temp) == MakeApiCall(b2, api, modelId, messages, temp)
  {
  }

  /** Every failure of a known backend names the backend, so failures are never anonymous. */
  lemma FailuresAreTagged(b: Backends, api: string, modelId: string, messages: seq<Message>, temp: real)
    requires MakeApiCall(b, api, modelId, messages, temp).Failed?
    ensures var e := MakeApiCall(b, api, modelId, messages, temp).error;
      || (api == "openai" && e == "OpenAI Error: " + b.openai(modelId, messages, temp).message)
      || (api == "gemini" && e == "Gemini Error: " + b.gemini(modelId, FlattenPrompt(messages), temp).message)
      || (api != "openai" && api != "gemini" && e == "Unknown API: " + api)
  {
  }

  lemma {:induction false} UserContentsAppend(a: seq<Message>, c: seq<Message>)
    ensures UserContents(a + c) == UserContents(a) + UserContents(c)
  {
    if a != [] {
      assert (a + c)[1..] == a[1..] + c;
      UserContentsAppend(a[1..], c);
    } else {
      assert a + c == c;
    }
  }

  /** The Gemini prompt ignores messages of any role but `user`, and puts the separator
      between consecutive user contents; a lone user message is sent verbatim. */
  lemma FlattenPromptFacts(a: seq<Message>, m: Message)
    ensures FlattenPrompt([Message("user", m.content)]) == m.content
    ensures m.role != "user" ==> FlattenPrompt(a + [m]) == FlattenPrompt(a)
    ensures m.role == "user" && UserContents(a) != [] ==>
      FlattenPrompt(a + [m]) == FlattenPrompt(a) + "\\n" + m.content
  {
    assert UserContents([Message("user", m.content)]) == [m.content] + UserContents([]);
    UserContentsAppend(a, [m]);
    assert UserContents([m]) == (if m.role == "user" then [m.content] else []);
    if m.role == "user" && UserContents(a) != [] {
      JoinAppend("\\n", UserContents(a), [m.content]);
    }
    if m.role != "user" {
      assert UserContents(a) + [] == UserContents(a);
    }
  }

  // ---------------------------------------------------------------------------
  // Initial answers
  // ---------------------------------------------------------------------------

  /** The results of one call per model, aligned with the models (the `asyncio.gather`). */
  function Fanout(b: Backends, models: seq<ModelRecord>, messages: seq<Message>, temp: real): (rs: seq<CallResult>)
    requires forall m <- models :: m.api.Some?
    ensures |rs| == |models|
  {
    seq(|models|, i requires 0 <= i < |models| => MakeApiCall(b, models[i].api.value, models[i].modelId, messages, temp))
  }

  /** What the filling loop assigns: each model's name to its result overlaid by its record. */
  function InitialPairs(models: seq<ModelRecord>, results: seq<CallResult>): (ps: seq<(string, Entry)>)
    requires |results| == |models|
    ensures Firsts(ps) == Names(models)
  {
    var ps := seq(|models|, i requires 0 <= i < |models| => (models[i].name, ResultDict(results[i]) + RecordDict(models[i])));
    assert Firsts(ps) == Names(models);
    ps
  }

  /** `get_initial_answers`: the question goes to every model; a record without an `api`
      key raises while the calls are being set up, before any is made. */
  function InitialAnswers(b: Backends, models: seq<ModelRecord>, question: string): (r: Outcome<Dict<Entry>>)
    ensures r.Raised? <==> exists m <- models :: m.api.None?
    ensures r.Raised? ==> r.exc == KeyError("api")
  {
    if forall m <- models :: m.api.Some? then
      Returned(FromPairs(InitialPairs(models, Fanout(b, models, [Message("user", question)], DEFAULT_TEMPERATURE))))
    else
      Raised(KeyError("api"))
  }

  /** What an entry of the initial round holds: the model's name, a success flag, content
      exactly when there is no error, and none of the keys added later. */
  ghost predicate InitialShape(k: string, e: Entry) {
    && "name" in e && e["name"] == Str(k)
    && "success" in e
    && ("content" in e <==> "error" !in e)
    && ("content" in e ==> e["content"].Str? && e["success"] == Flag(true))
    && ("error" in e ==> e["success"] == Flag(false))
    && "label" !in e && "label_class" !in e && "original_content" !in e
  }

  /** The initial answers hold one entry per distinct configured name, in configuration
      order; the entry of a name is the result of the call for the last model with that
      name, overlaid by that model's record. */
  lemma InitialAnswersSpec(b: Backends, models: seq<ModelRecord>, question: string)
    requires InitialAnswers(b, models, question).Returned?
    ensures var d := InitialAnswers(b, models, question).value;
      var rs := Fanout(b, models, [Message("user", question)], DEFAULT_TEMPERATURE);
      && Valid(d)
      && d.keys == Dedup(Names(models))
      && (Distinct(Names(models)) ==> d.keys == Names(models))
      && (forall k :: k in d.items <==> k in Names(models))
      && (forall k :: k in d.items ==>
            var j := LastIndex(Names(models), k);
            d.items[k] == ResultDict(rs[j]) + RecordDict(models[j]))
  {
    var rs := Fanout(b, models, [Message("user", question)], DEFAULT_TEMPERATURE);
    var ps := InitialPairs(models, rs);
    FromPairsKeys(ps);
    forall k | k in Names(models)
      ensures FromPairs(ps).items[k] == ps[LastIndex(Names(models), k)].1
    {
      FromPairsLookup(ps, k);
    }
    if Distinct(Names(models)) {
      DedupDistinct(Names(models));
    }
  }

  /** Every initial entry is keyed by its own name and holds content xor error. */
  lemma InitialAnswersShape(b: Backends, models: seq<ModelRecord>, question: string)
    requires InitialAnswers(b, models, question).Returned?
    ensures var d := InitialAnswers(b, models, question).value;
      forall k :: k in d.items ==> InitialShape(k, d.items[k])
  {
    InitialAnswersSpec(b, models, question);
    var d := InitialAnswers(b, models, question).value;
    var rs := Fanout(b, models, [Message("user", question)], DEFAULT_TEMPERATURE);
    forall k | k in d.items ensures InitialShape(k, d.items[k]) {
      var j := LastIndex(Names(models), k);
      MergedShape(rs[j], models[j]);
    }
  }

  /** A call result overlaid by a model record has the initial shape. */
  lemma MergedShape(r: CallResult, m: ModelRecord)
    ensures InitialShape(m.name, ResultDict(r) + RecordDict(m))
  {
    var e := ResultDict(r) + RecordDict(m);
    assert "content" in e <==> r.Answered?;
    assert "error" in e <==> r.Failed?;
  }

  // ---------------------------------------------------------------------------
  // Judge verdict
  // ---------------------------------------------------------------------------

  /** The keys, in iteration order, whose entries hold a `content`. */
  function ContentKeys(keys: seq<string>, items: map<string, Entry>): (r: seq<string>)
    requires forall k <- keys :: k in items
    ensures forall k <- r :: k in keys && "content" in items[k]
    ensures forall k <- keys :: "content" in items[k] ==> k in r
  {
    if keys == [] then []
    else (if "content" in items[keys[0]] then [keys[0]] else []) + ContentKeys(keys[1..], items)
  }

  /** The filter keeps iteration order: it distributes over concatenated key lists. */
  lemma {:induction false} ContentKeysAppend(a: seq<string>, c: seq<string>, items: map<string, Entry>)
    requires forall k <- a :: k in items
    requires forall k <- c :: k in items
    ensures ContentKeys(a + c, items) == ContentKeys(a, items) + ContentKeys(c, items)
  {
    if a != [] {
      assert (a + c)[1..] == a[1..] + c;
      ContentKeysAppend(a[1..], c, items);
    } else {
      assert a + c == c;
    }
  }

  /** A dictionary `are_answers_similar` can read: content entries have a name. */
  ghost predicate Judgeable(d: Dict<Entry>) {
    Valid(d) && forall k :: k in d.items && "content" in d.items[k] ==> "name" in d.items[k]
  }

  /** One item of `answer_list`. */
  function AnswerText(e: Entry): string
    requires "name" in e && "content" in e
  {
    "Answer from " + Show(e["name"]) + ":\\n" + Show(e["content"])
  }

  /** `answer_list`: one text per content entry, in iteration order. */
  function AnswerList(d: Dict<Entry>): (r: seq<string>)
    requires Judgeable(d)
    ensures var ck := ContentKeys(d.keys, d.items);
      |r| == |ck| && forall i :: 0 <= i < |ck| ==> r[i] == AnswerText(d.items[ck[i]])
  {
    var ck := ContentKeys(d.keys, d.items);
    seq(|ck|, i requires 0 <= i < |ck| => AnswerText(d.items[ck[i]]))
  }

  // The fixed pieces of the comparison prompt (llm_handler.py:84-91).
  const JUDGE_QUESTION: string := "The user asked: \""
  const JUDGE_INTRO: string := "\"\nI received two answers:\n---\n"
  const JUDGE_RULE: string := "\n---\n"
  const JUDGE_TAIL: string := "\n---\nDo these answers provide the same core information? Respond with only YES or NO."

  /** The comparison prompt sent to the judge: the question and the two answer texts. */
  function JudgePrompt(question: string, first: string, second: string): string {
    JUDGE_QUESTION + question + JUDGE_INTRO + first + JUDGE_RULE + second + JUDGE_TAIL
  }

  /** `result.get("content", "")` */
  function ReplyText(r: CallResult): string {
    if r.Answered? then r.content else ""
  }

  /** The judge's call for a dictionary with at least two content entries. */
  function JudgeCall(b: Backends, judgeApi: string, judgeModelId: string, question: string, d: Dict<Entry>): CallResult
    requires Judgeable(d) && |AnswerList(d)| >= 2
  {
    var list := AnswerList(d);
    MakeApiCall(b, judgeApi, judgeModelId, [Message("user", JudgePrompt(question, list[0], list[1]))], JUDGE_TEMPERATURE)
  }

  /** `are_answers_similar` */
  function AreAnswersSimilar(b: Backends, judgeApi: string, judgeModelId: string, question: string, d: Dict<Entry>): bool
    requires Judgeable(d)
  {
    var list := AnswerList(d);
    if |list| < 2 then true
    else IsYes(ReplyText(JudgeCall(b, judgeApi, judgeModelId, question, d)))
  }

  /** With fewer than two content entries the verdict is "similar" whatever the judge would
      have said: no judge call is made. */
  lemma FewAnswersAgree(b1: Backends, b2: Backends, judgeApi: string, judgeModelId: string, question: string, d: Dict<Entry>)
    requires Judgeable(d) && |ContentKeys(d.keys, d.items)| < 2
    ensures AreAnswersSimilar(b1, judgeApi, judgeModelId, question, d)
    ensures AreAnswersSimilar(b2, judgeApi, judgeModelId, question, d)
  {
  }

  /** With two or more content entries the verdict is exactly the judge's YES: the prompt
      names the first two content entries, and a failed judge call means "not similar". */
  lemma JudgeDecides(b: Backends, judgeApi: string, judgeModelId: string, question: string, d: Dict<Entry>)
    requires Judgeable(d) && |ContentKeys(d.keys, d.items)| >= 2
    ensures var ck := ContentKeys(d.keys, d.items);
      var prompt := JudgePrompt(question, AnswerText(d.items[ck[0]]), AnswerText(d.items[ck[1]]));
      var reply := MakeApiCall(b, judgeApi, judgeModelId, [Message("user", prompt)], JUDGE_TEMPERATURE);
      && (AreAnswersSimilar(b, judgeApi, judgeModelId, question, d) <==> reply.Answered? && IsYes(reply.content))
      && (reply.Failed? ==> !AreAnswersSimilar(b, judgeApi, judgeModelId, question, d))
  {
    assert !IsYes("") by {
      assert Strip("") == "";
    }
  }

  /** Only the first two content entries matter: two dictionaries that agree on them get
      the same verdict, whatever else they hold. */
  lemma FirstTwoDecide(b: Backends, judgeApi: string, judgeModelId: string, question: string, d1: Dict<Entry>, d2: Dict<Entry>)
    requires Judgeable(d1) && Judgeable(d2)
    requires var c1, c2 := ContentKeys(d1.keys, d1.items), ContentKeys(d2.keys, d2.items);
      && |c1| >= 2 && |c2| >= 2
      && d1.items[c1[0]] == d2.items[c2[0]] && d1.items[c1[1]] == d2.items[c2[1]]
    ensures AreAnswersSimilar(b, judgeApi, judgeModelId, question, d1) == AreAnswersSimilar(b, judgeApi, judgeModelId, question, d2)
  {
  }

  // ---------------------------------------------------------------------------
  // Revised answers
  // ---------------------------------------------------------------------------

  /** `next((m for m in models if m["name"] != name), None)`: the counterpart. */
  function Counterpart(models: seq<ModelRecord>, name: string): (r: Option<ModelRecord>)
    ensures r.None? <==> forall m <- models :: m.name == name
    ensures r.Some? ==> r.value in models && r.value.name != name
  {
    if models == [] then None
    else if models[0].name != name then Some(models[0])
    else Counterpart(models[1..], name)
  }

  /** The counterpart is the first model, in list order, with a different name. */
  lemma {:induction false} CounterpartIsFirst(models: seq<ModelRecord>, name: string, i: nat)
    requires i < |models| && models[i].name != name
    requires forall j :: 0 <= j < i ==> models[j].name == name
    ensures Counterpart(models, name) == Some(models[i])
  {
    if i > 0 {
      CounterpartIsFirst(models[1..], name, i - 1);
    }
  }

  /** A model takes part in the revision round: it has a counterpart, and both its name
      and the counterpart's are keys of the initial answers. */
  predicate Scheduled(models: seq<ModelRecord>, m: ModelRecord, original: Dict<Entry>) {
    var other := Counterpart(models, m.name);
    other.Some? && m.name in original.items && other.value.name in original.items
  }

  /** What a scheduled model's pass needs and may lack: both entries' `content`, and
      the record's `api`. */
  predicate MissingForRevision(models: seq<ModelRecord>, m: ModelRecord, original: Dict<Entry>)
    requires Scheduled(models, m, original)
  {
    var other := Counterpart(models, m.name).value;
    "content" !in original.items[m.name] || "content" !in original.items[other.name] || m.api.None?
  }

  /** A revision call set up but not yet made: the model's name and the call's arguments. */
  datatype Task = Task(name: string, api: string, modelId: string, messages: seq<Message>)

  // The fixed pieces of the revision prompt (llm_handler.py:106-109).
  const FEEDBACK_QUESTION: string := "Original question: \""
  const FEEDBACK_OWN: string := "\"\nYour answer: \""
  const FEEDBACK_OTHER: string := "\"\nThe other model's answer: \""
  const FEEDBACK_TAIL: string := "\"\nReview both. If yours is best, defend it. Otherwise, provide a revised answer. Respond with only the final answer."

  /** The revision prompt: the question, the model's own answer and its counterpart's. */
  function FeedbackPrompt(question: string, own: Value, other: Value): string {
    FEEDBACK_QUESTION + question + FEEDBACK_OWN + Show(own) + FEEDBACK_OTHER + Show(other) + FEEDBACK_TAIL
  }

  /** What one pass of the planning loop does with one model: skip it, set up its call, or
      raise because an entry has no `content` or the record has no `api`. */
  function PlanOne(models: seq<ModelRecord>, m: ModelRecord, question: string, original: Dict<Entry>): (r: Outcome<Option<Task>>)
    ensures r == Returned(None) <==> !Scheduled(models, m, original)
    ensures r.Raised? <==> Scheduled(models, m, original) && MissingForRevision(models, m, original)
    ensures r.Returned? && r.value.Some? ==> r.value.value.name == m.name && Scheduled(models, m, original)
  {
    var other := Counterpart(models, m.name);
    if other.None? || m.name !in original.items || other.value.name !in original.items then Returned(None)
    else if "content" !in original.items[m.name] || "content" !in original.items[other.value.name] then Raised(KeyError("content"))
    else if m.api.None? then Raised(KeyError("api"))
    else
      var prompt := FeedbackPrompt(question, original.items[m.name]["content"], original.items[other.value.name]["content"]);
      Returned(Some(Task(m.name, m.api.value, m.modelId, [Message("user", prompt)])))
  }

  /** The planning loop over the first n models: the tasks set up so far, or the first
      exception. */
  function Plan(models: seq<ModelRecord>, n: nat, question: string, original: Dict<Entry>): (r: Outcome<seq<Task>>)
    requires n <= |models|
    ensures r.Returned? ==> forall t <- r.value :: t.name in original.items && "content" in original.items[t.name]
  {
    if n == 0 then Returned([])
    else
      var prev := Plan(models, n - 1, question, original);
      if prev.Raised? then prev
      else
        var step := PlanOne(models, models[n - 1], question, original);
        if step.Raised? then Raised(step.exc)
        else if step.value.None? then prev
        else Returned(prev.value + [step.value.value])
  }

  /** The names of the scheduled models among the first n, in list order. */
  function ScheduledNames(models: seq<ModelRecord>, n: nat, original: Dict<Entry>): (r: seq<string>)
    requires n <= |models|
  {
    if n == 0 then []
    else
      ScheduledNames(models, n - 1, original)
      + (if Scheduled(models, models[n - 1], original) then [models[n - 1].name] else [])
  }

  /** The names of the planned calls, in order. This is the projection `Records.Names` makes
      of model records, taken here of tasks: the revision dictionary is keyed by the tasks'
      names, which are those of the scheduled models. */
  function TaskNames(ts: seq<Task>): (r: seq<string>)
    ensures |r| == |ts| && forall i :: 0 <= i < |ts| ==> r[i] == ts[i].name
  {
    seq(|ts|, i requires 0 <= i < |ts| => ts[i].name)
  }

  /** Planning raises iff some model's pass raises; otherwise it sets up exactly one call
      per scheduled model, in list order. */
  lemma {:induction false} PlanRaises(models: seq<ModelRecord>, n: nat, question: string, original: Dict<Entry>)
    requires n <= |models|
    ensures Plan(models, n, question, original).Raised? <==>
      exists i :: 0 <= i < n && PlanOne(models, models[i], question, original).Raised?
  {
    if n > 0 {
      PlanRaises(models, n - 1, question, original);
      var step := PlanOne(models, models[n - 1], question, original);
      if Plan(models, n - 1, question, original).Raised? {
        var i :| 0 <= i < n - 1 && PlanOne(models, models[i], question, original).Raised?;
        assert 0 <= i < n && PlanOne(models, models[i], question, original).Raised?;
      } else if step.Raised? {
        assert Plan(models, n, question, original).Raised?;
      } else {
        assert Plan(models, n, question, original).Returned?;
        assert forall i :: 0 <= i < n && PlanOne(models, models[i], question, original).Raised? ==> i == n - 1;
      }
    }
  }

  /** Once a pass raises, the loop ends with that exception. */
  lemma {:induction false} PlanRaisedStays(models: seq<ModelRecord>, n: nat, n': nat, question: string, original: Dict<Entry>)
    requires n <= n' <= |models| && Plan(models, n, question, original).Raised?
    ensures Plan(models, n', question, original) == Plan(models, n, question, original)
  {
    if n' > n {
      PlanRaisedStays(models, n, n' - 1, question, original);
    }
  }

  /** Planning that does not raise sets up exactly one call per scheduled model, in list
      order. */
  lemma {:induction false} PlanSchedules(models: seq<ModelRecord>, n: nat, question: string, original: Dict<Entry>)
    requires n <= |models|
    ensures Plan(models, n, question, original).Returned? ==>
      TaskNames(Plan(models, n, question, original).value) == ScheduledNames(models, n, original)
  {
    if n > 0 {
      PlanSchedules(models, n - 1, question, original);
      var prev := Plan(models, n - 1, question, original);
      var step := PlanOne(models, models[n - 1], question, original);
      if prev.Returned? && step.Returned? {
        if step.value.Some? {
          assert TaskNames(prev.value + [step.value.value]) == TaskNames(prev.value) + [models[n - 1].name];
        } else {
          assert ScheduledNames(models, n, original) == ScheduledNames(models, n - 1, original) + [];
        }
      }
    }
  }

  /** The scheduled names are exactly the names of the models that are scheduled. */
  lemma {:induction false} ScheduledNamesMembers(models: seq<ModelRecord>, n: nat, original: Dict<Entry>, x: string)
    requires n <= |models|
    ensures x in ScheduledNames(models, n, original) <==>
      exists i :: 0 <= i < n && models[i].name == x && Scheduled(models, models[i], original)
  {
    if n > 0 {
      ScheduledNamesMembers(models, n - 1, original, x);
    }
  }

  /** How one revision result is merged into the model's initial entry. */
  function Revise(entry: Entry, r: CallResult): (e: Entry)
    ensures r.Answered? ==> && e.Keys == entry.Keys + {"content", "original_content"}
                            && e["content"] == Str(r.content)
                            && e["original_content"] == Get(entry, "content", Null)
    ensures r.Failed? ==> e.Keys == entry.Keys + {"error"} && e["error"] == Str(r.error)
    ensures forall k :: k in entry && k != "content" && k != "original_content" && k != "error" ==> e[k] == entry[k]
    ensures r.Failed? ==> forall k :: k in entry && k != "error" ==> e[k] == entry[k]
  {
    match r
    case Answered(c) => entry + map["content" := Str(c), "original_content" := Get(entry, "content", Null)]
    case Failed(err) => entry + map["error" := Str(err)]
  }

  /** The call a task stands for. */
  function Dispatch(b: Backends, t: Task): CallResult {
    MakeApiCall(b, t.api, t.modelId, t.messages, DEFAULT_TEMPERATURE)
  }

  /** The results of the revision calls, aligned with the tasks (the `asyncio.gather`). */
  function Gather(b: Backends, tasks: seq<Task>): (rs: seq<CallResult>)
    ensures |rs| == |tasks| && forall j :: 0 <= j < |tasks| ==> rs[j] == Dispatch(b, tasks[j])
  {
    seq(|tasks|, j requires 0 <= j < |tasks| => Dispatch(b, tasks[j]))
  }

  /** What the merging loop assigns: each task's name to its merged entry. */
  function MergePairs(tasks: seq<Task>, results: seq<CallResult>, original: Dict<Entry>): (ps: seq<(string, Entry)>)
    requires |results| == |tasks| && forall t <- tasks :: t.name in original.items
    ensures Firsts(ps) == TaskNames(tasks)
    ensures |ps| == |tasks| && forall j :: 0 <= j < |tasks| ==> ps[j] == (tasks[j].name, Revise(original.items[tasks[j].name], results[j]))
  {
    var ps := seq(|tasks|, j requires 0 <= j < |tasks| => (tasks[j].name, Revise(original.items[tasks[j].name], results[j])));
    assert Firsts(ps) == TaskNames(tasks);
    ps
  }

  /** The merging loop of `get_revised_answers` (llm_handler.py:117-125). */
  method MergeRevisions(tasks: seq<Task>, results: seq<CallResult>, original: Dict<Entry>) returns (revised: Dict<Entry>)
    requires |results| == |tasks| && forall t <- tasks :: t.name in original.items
    ensures revised == FromPairs(MergePairs(tasks, results, original))
  {
    ghost var ps := MergePairs(tasks, results, original);
    revised := Empty();
    var j := 0;
    while j < |tasks|
      invariant 0 <= j <= |tasks|
      invariant revised == FromPairs(ps[..j])
    {
      FromPairsSnoc(ps, j);
      var name := tasks[j].name;
      var own := original.items[name];
      var merged;
      match results[j] {
        case Answered(c) =>
          merged := own + map["content" := Str(c), "original_content" := Get(own, "content", Null)];
        case Failed(e) =>
          merged := own + map["error" := Str(e)];
      }
      assert merged == Revise(own, results[j]);
      revised := Put(revised, name, merged);
      j := j + 1;
    }
    assert ps[..|ps|] == ps;
  }

  /** `get_revised_answers` */
  function RevisedAnswers(b: Backends, models: seq<ModelRecord>, question: string, original: Dict<Entry>): Outcome<Dict<Entry>> {
    match Plan(models, |models|, question, original)
    case Raised(e) => Raised(e)
    case Returned(tasks) => Returned(FromPairs(MergePairs(tasks, Gather(b, tasks), original)))
  }

  /** The revised answers hold one entry per distinct scheduled name, in list order, and
      only names whose initial entry has content. */
  lemma RevisedAnswersKeys(b: Backends, models: seq<ModelRecord>, question: string, original: Dict<Entry>)
    requires RevisedAnswers(b, models, question, original).Returned?
    ensures var d := RevisedAnswers(b, models, question, original).value;
      && Valid(d)
      && d.keys == Dedup(ScheduledNames(models, |models|, original))
      && (forall k :: k in d.items <==> k in ScheduledNames(models, |models|, original))
      && (forall k :: k in d.items ==> k in original.items && "content" in original.items[k])
  {
    var tasks := Plan(models, |models|, question, original).value;
    PlanSchedules(models, |models|, question, original);
    var ps := MergePairs(tasks, Gather(b, tasks), original);
    FromPairsFacts(ps);
    forall k | k in TaskNames(tasks) ensures k in original.items && "content" in original.items[k] {
      var t := tasks[LastIndex(TaskNames(tasks), k)];
      assert t in tasks;
    }
  }

  /** Each revised entry is the model's initial entry merged with the result of its (last)
      revision call. */
  lemma RevisedAnswersEntries(b: Backends, models: seq<ModelRecord>, question: string, original: Dict<Entry>, k: string)
    requires RevisedAnswers(b, models, question, original).Returned?
    requires k in RevisedAnswers(b, models, question, original).value.items
    ensures var tasks := Plan(models, |models|, question, original).value;
      && k in TaskNames(tasks)
      && var t := tasks[LastIndex(TaskNames(tasks), k)];
      && t.name == k && k in original.items
      && RevisedAnswers(b, models, question, original).value.items[k] == Revise(original.items[k], Dispatch(b, t))
  {
    var tasks := Plan(models, |models|, question, original).value;
    var ps := MergePairs(tasks, Gather(b, tasks), original);
    FromPairsFacts(ps);
  }

  /** A scheduled model whose initial call failed makes the revision round raise, whatever
      the backends would reply. (The exception is KeyError("content") unless an earlier
      scheduled model already stopped the loop, for instance with KeyError("api").) */
  lemma FailedInitialBreaksRevision(b: Backends, models: seq<ModelRecord>, i: nat, question: string, original: Dict<Entry>)
    requires i < |models| && Scheduled(models, models[i], original)
    requires "content" !in original.items[models[i].name]
    ensures RevisedAnswers(b, models, question, original).Raised?
  {
    PlanRaises(models, |models|, question, original);
    assert PlanOne(models, models[i], question, original).Raised?;
  }

  // ---------------------------------------------------------------------------
  // The handler object
  // ---------------------------------------------------------------------------

  /** The configuration the handler starts with. */
  function DefaultModels(): seq<ModelRecord> {
    [ ModelRecord("GPT-4o-mini", "gpt-4o-mini", Some("openai"), None),
      ModelRecord("Gemini-1.5-Flash", "gemini-1.5-flash-latest", Some("gemini"), None) ]
  }

  /** With the two default models, when both initial entries hold content, each model is
      revised once, against the other, with its own record's call. */
  lemma DefaultModelsBothRevised(question: string, original: Dict<Entry>)
    requires forall m <- DefaultModels() :: m.name in original.items && "content" in original.items[m.name]
    ensures var models := DefaultModels();
      && Plan(models, 2, question, original).Returned?
      && var tasks := Plan(models, 2, question, original).value;
      && TaskNames(tasks) == ["GPT-4o-mini", "Gemini-1.5-Flash"]
      && tasks[0].api == "openai" && tasks[0].modelId == "gpt-4o-mini"
      && tasks[1].api == "gemini" && tasks[1].modelId == "gemini-1.5-flash-latest"
      && tasks[0].messages == [Message("user", FeedbackPrompt(question, original.items["GPT-4o-mini"]["content"], original.items["Gemini-1.5-Flash"]["content"]))]
      && tasks[1].messages == [Message("user", FeedbackPrompt(question, original.items["Gemini-1.5-Flash"]["content"], original.items["GPT-4o-mini"]["content"]))]
  {
    var models := DefaultModels();
    assert models[0] in models && models[1] in models;
    CounterpartIsFirst(models, models[0].name, 1);
    CounterpartIsFirst(models, models[1].name, 0);
    var s0, s1 := PlanOne(models, models[0], question, original), PlanOne(models, models[1], question, original);
    assert Scheduled(models, models[0], original) && !MissingForRevision(models, models[0], original);
    assert Scheduled(models, models[1], original) && !MissingForRevision(models, models[1], original);
    assert s0.Returned? && s0.value.Some? && s1.Returned? && s1.value.Some?;
    assert Plan(models, 0, question, original) == Returned([]);
    assert [] + [s0.value.value] == [s0.value.value];
    assert Plan(models, 1, question, original) == Returned([s0.value.value]);
    assert [s0.value.value] + [s1.value.value] == [s0.value.value, s1.value.value];
    assert Plan(models, 2, question, original) == Returned([s0.value.value, s1.value.value]);
  }

  /** `[m for m in models if m["name"] != name]` */
  function Without(models: seq<ModelRecord>, name: string): (r: seq<ModelRecord>)
    ensures forall m <- r :: m.name != name
    ensures forall m <- models :: m.name != name ==> m in r
    ensures forall m <- r :: m in models
  {
    if models == [] then []
    else (if models[0].name != name then [models[0]] else []) + Without(models[1..], name)
  }

  /** Removal distributes over concatenation, so the kept records stay in their order. */
  lemma {:induction false} WithoutAppend(a: seq<ModelRecord>, c: seq<ModelRecord>, name: string)
    ensures Without(a + c, name) == Without(a, name) + Without(c, name)
  {
    if a == [] {
      assert a + c == c;
    } else {
      assert (a + c)[1..] == a[1..] + c;
      WithoutAppend(a[1..], c, name);
    }
  }

  /** Removing a name no record has changes nothing. */
  lemma {:induction false} WithoutAbsent(a: seq<ModelRecord>, name: string)
    requires forall m <- a :: m.name != name
    ensures Without(a, name) == a
  {
    if a != [] {
      WithoutAbsent(a[1..], name);
    }
  }

  class LLMHandler {
    var models: seq<ModelRecord>
    const judgeModelId: string
    const judgeApi: string

    /** A handler with the two default models and the OpenAI judge. */
    constructor ()
      ensures models == DefaultModels()
      ensures judgeModelId == "gpt-4o-mini" && judgeApi == "openai"
    {
      models := DefaultModels();
      judgeModelId := "gpt-4o-mini";
      judgeApi := "openai";
    }

    /** `get_models_list`: a copy of the configured records. */
    method GetModelsList() returns (r: seq<ModelRecord>)
      ensures r == models
    {
      r := models;
    }

    /** `add_model`: append a record whose display name defaults to its name. The record
        carries no `api`. */
    method AddModel(name: string, modelId: string, displayName: Option<string>)
      modifies this
      ensures models == old(models) + [ModelRecord(name, modelId, None, Some(displayName.GetOr(name)))]
    {
      var shown := if displayName.None? then name else displayName.value;
      models := models + [ModelRecord(name, modelId, None, Some(shown))];
    }

    /** `remove_model`: drop every record with that name. */
    method RemoveModel(name: string)
      modifies this
      ensures models == Without(old(models), name)
      ensures forall m <- models :: m.name != name
      ensures forall m <- old(models) :: m.name != name ==> m in models
    {
      models := Without(models, name);
    }

    /** `get_initial_answers` */
    method GetInitialAnswers(b: Backends, question: string) returns (r: Outcome<Dict<Entry>>)
      ensures r == InitialAnswers(b, models, question)
      ensures r.Raised? <==> exists m <- models :: m.api.None?
      ensures r.Returned? ==> Valid(r.value) && r.value.keys == Dedup(Names(models))
    {
      var messages := [Message("user", question)];
      if exists m <- models :: m.api.None? {
        return Raised(KeyError("api"));
      }
      var results := Fanout(b, models, messages, DEFAULT_TEMPERATURE);
      ghost var ps := InitialPairs(models, results);
      var answers: Dict<Entry> := Empty();
      var i := 0;
      while i < |results|
        invariant 0 <= i <= |results| == |models|
        invariant answers == FromPairs(ps[..i])
      {
        FromPairsSnoc(ps, i);
        answers := Put(answers, models[i].name, ResultDict(results[i]) + RecordDict(models[i]));
        i := i + 1;
      }
      assert ps[..|ps|] == ps;
      r := Returned(answers);
      InitialAnswersSpec(b, models, question);
    }

    /** One pass of the planning loop of `get_revised_answers` (llm_handler.py:99-113). */
    method PlanPass(m: ModelRecord, question: string, original: Dict<Entry>) returns (step: Outcome<Option<Task>>)
      ensures step == PlanOne(models, m, question, original)
    {
      var other := Counterpart(models, m.name);
      if other.None? || m.name !in original.items || other.value.name !in original.items {
        return Returned(None);
      }
      if "content" !in original.items[m.name] || "content" !in original.items[other.value.name] {
        return Raised(KeyError("content"));
      }
      var prompt := FeedbackPrompt(question, original.items[m.name]["content"], original.items[other.value.name]["content"]);
      if m.api.None? {
        return Raised(KeyError("api"));
      }
      step := Returned(Some(Task(m.name, m.api.value, m.modelId, [Message("user", prompt)])));
    }

    /** `get_revised_answers` */
    method GetRevisedAnswers(b: Backends, question: string, original: Dict<Entry>) returns (r: Outcome<Dict<Entry>>)
      ensures r == RevisedAnswers(b, models, question, original)
      ensures r.Returned? ==> Valid(r.value) && r.value.keys == Dedup(ScheduledNames(models, |models|, original))
    {
      var tasks: seq<Task> := [];
      var i := 0;
      while i < |models|
        invariant 0 <= i <= |models|
        invariant Plan(models, i, question, original) == Returned(tasks)
      {
        var step := PlanPass(models[i], question, original);
        if step.Raised? {
          r := Raised(step.exc);
          PlanRaisedStays(models, i + 1, |models|, question, original);
          return;
        }
        if step.value.Some? {
          tasks := tasks + [step.value.value];
        }
        i := i + 1;
      }
      assert forall t <- tasks :: t.name in original.items;
      var results := Gather(b, tasks);
      var revised := MergeRevisions(tasks, results, original);
      r := Returned(revised);
      RevisedAnswersKeys(b, models, question, original);
    }
  }
}
