/**
 * main.py: what happens when one of the three buttons is pressed. A guard
 * over the session decides whether the generation runs; if it does, the
 * provider is called at most three times, stopping at the first call that
 * does not raise, with a warning after every failed call but the last and
 * an error and empty results after the third.
 */
module MainApp {
  import opened Common
  import opened Json
  import Gemini
  import CodeModel
  import GuidenceModel
  import TestCases

  // ---------------------------------------------------------------------
  // The bounded retry loop
  // ---------------------------------------------------------------------

  /** `max_retries`, the same in all three loops. */
  const MaxRetries: nat := 3

  datatype Task = CodeGeneration | Guidance | TestCaseGeneration

  /** The messages the user is shown. */
  datatype Notice =
    /** `st.warning`: "Retrying attempt {nextAttempt}/{maxAttempts}..." */
    | Warning(task: Task, nextAttempt: nat, maxAttempts: nat)
    /** `st.error`: "... after {attempts} attempts: {e}" */
    | Exhausted(task: Task, attempts: nat)
    /** `st.error` when the inputs a generation needs are missing */
    | MissingInputs(task: Task)

  /** The warnings after `n` failed calls none of which was the last: they name attempts 2 to n + 1. */
  function Warnings(task: Task, n: nat): (w: seq<Notice>)
    ensures |w| == n
    ensures forall k :: 0 <= k < n ==> w[k] == Warning(task, k + 2, MaxRetries)
  {
    if n == 0 then [] else Warnings(task, n - 1) + [Warning(task, n + 1, MaxRetries)]
  }

  /**
   * The `while retry_count < max_retries` loop. `attempt(k)` is what the
   * k-th call (from 0) does: raise, or return a value. The loop calls at
   * most three times and never again after a call that returned; every call
   * before the last raised. A success on call k leaves exactly k - 1
   * warnings; three failures leave two warnings, one error, and the default
   * result.
   */
  method RetryLoop<T>(task: Task, attempt: nat -> Outcome<T>, default: T)
    returns (result: T, succeeded: bool, calls: nat, notices: seq<Notice>)
    ensures 1 <= calls <= MaxRetries
    ensures forall k :: 0 <= k < calls - 1 ==> attempt(k).Raised?
    ensures succeeded <==> attempt(calls - 1).Returned?
    ensures succeeded ==> result == attempt(calls - 1).value && notices == Warnings(task, calls - 1)
    ensures !succeeded ==> calls == MaxRetries && result == default &&
                           notices == Warnings(task, MaxRetries - 1) + [Exhausted(task, MaxRetries)]
  {
    var retryCount := 0;
    result, succeeded, calls, notices := default, false, 0, [];
    while retryCount < MaxRetries
      invariant 0 <= retryCount <= MaxRetries && calls == retryCount && !succeeded
      invariant forall k :: 0 <= k < retryCount ==> attempt(k).Raised?
      invariant retryCount < MaxRetries ==> notices == Warnings(task, retryCount)
      invariant retryCount == MaxRetries ==>
        result == default && notices == Warnings(task, MaxRetries - 1) + [Exhausted(task, MaxRetries)]
    {
      var outcome := attempt(retryCount);
      calls := calls + 1;
      if outcome.Returned? {
        result, succeeded := outcome.value, true;
        break;
      }
      retryCount := retryCount + 1;
      if retryCount == MaxRetries {
        notices := notices + [Exhausted(task, MaxRetries)];
        result := default;
      } else {
        notices := notices + [Warning(task, retryCount + 1, MaxRetries)];
      }
    }
  }

  // ---------------------------------------------------------------------
  // Reading the fields of the generated code
  // ---------------------------------------------------------------------

  /** `code`, `documentation` and `optimization_recommendations` as read from the model's output. */
  datatype CodeFields = CodeFields(sourceCode: Json.Value, documentation: Json.Value, recommendations: Json.Value)

  /** What the three variables hold when every attempt failed. */
  const EmptyFields: CodeFields := CodeFields(Json.Str(""), Json.Str(""), Json.Array([]))

  /**
   * The three `model_output.get(key, default)` calls: they raise unless the
   * output is a dictionary (a `None` from a failed JSON decode included);
   * on a dictionary, a missing key gives its empty default and a present
   * key its value unchanged.
   */
  function FieldsOf(output: Option<Json.Value>): (f: Outcome<CodeFields>)
    ensures f.Returned? <==> output.Some? && output.value.Object?
    ensures f.Returned? ==>
      var d := output.value.fields;
      (CodeModel.SourceCodeKey in d ==> f.value.sourceCode == d[CodeModel.SourceCodeKey]) &&
      (CodeModel.SourceCodeKey !in d ==> f.value.sourceCode == EmptyFields.sourceCode) &&
      (CodeModel.DocumentationKey in d ==> f.value.documentation == d[CodeModel.DocumentationKey]) &&
      (CodeModel.DocumentationKey !in d ==> f.value.documentation == EmptyFields.documentation) &&
      (CodeModel.RecommendationsKey in d ==> f.value.recommendations == d[CodeModel.RecommendationsKey]) &&
      (CodeModel.RecommendationsKey !in d ==> f.value.recommendations == EmptyFields.recommendations)
  {
    match output
    case Some(Object(d)) =>
      Returned(CodeFields(
        Json.Get(d, CodeModel.SourceCodeKey, Json.Str("")),
        Json.Get(d, CodeModel.DocumentationKey, Json.Str("")),
        Json.Get(d, CodeModel.RecommendationsKey, Json.Array([]))))
    case _ => Raised
  }

  /**
   * One pass of the code-generation `try` block: the call, then the three
   * reads. It fails when the call raises, when the reply has no text, when
   * the text is not JSON, and when the JSON is not an object; it succeeds
   * exactly when the parsed text is an object.
   */
  function CodeAttempt(reply: Outcome<Gemini.Response>, parse: Json.Parser): (r: Outcome<CodeFields>)
    ensures r.Returned? <==>
      reply.Returned? && Gemini.Text(reply.value).Some? &&
      parse(Gemini.Text(reply.value).value).Some? && parse(Gemini.Text(reply.value).value).value.Object?
    ensures r.Returned? ==> FieldsOf(parse(Gemini.Text(reply.value).value)) == r
  {
    match CodeModel.GetCodeModel(reply, parse)
    case Raised => Raised
    case Returned(output) => FieldsOf(output)
  }

  /**
   * A model output in which every key is missing still yields all three
   * fields, at their empty defaults, and those render as the bare two-section
   * document.
   */
  lemma MissingKeysDefault(parse: Json.Parser, text: string, d: map<string, Json.Value>)
    requires parse(text) == Some(Json.Object(d))
    requires CodeModel.SourceCodeKey !in d && CodeModel.DocumentationKey !in d && CodeModel.RecommendationsKey !in d
    ensures CodeAttempt(Returned(Gemini.Reply(text)), parse) == Returned(EmptyFields)
    ensures Render(EmptyFields) == Some(CodeModel.Markdown("", []))
  {
    Gemini.TextReadsOnlyFirst(text, [], []);
  }

  /** The strings of a list, when every item is a string. */
  function Texts(items: seq<Json.Value>): (r: Option<seq<string>>)
    ensures r.Some? <==> forall k :: 0 <= k < |items| ==> items[k].Str?
    ensures r.Some? ==> |r.value| == |items| && forall k :: 0 <= k < |items| ==> items[k] == Json.Str(r.value[k])
  {
    if items == [] then Some([])
    else if !items[0].Str? then None
    else match Texts(items[1..]) {
      case None => None
      case Some(rest) => Some([items[0].s] + rest)
    }
  }

  /** The recommendations as text, when the value is a list of strings. */
  function TextList(v: Json.Value): Option<seq<string>> {
    match v
    case Array(items) => Texts(items)
    case _ => None
  }

  /**
   * The document line 273 renders, when the documentation is a string and
   * the recommendations a list of strings.
   */
  function Render(f: CodeFields): (md: Option<string>)
    ensures md.Some? <==> f.documentation.Str? && TextList(f.recommendations).Some?
    ensures md.Some? ==> md.value == CodeModel.Markdown(f.documentation.s, TextList(f.recommendations).value)
  {
    match (f.documentation, TextList(f.recommendations))
    case (Str(doc), Some(rs)) => Some(CodeModel.Markdown(doc, rs))
    case _ => None
  }

  // ---------------------------------------------------------------------
  // The session and the guards
  // ---------------------------------------------------------------------

  /** The part of `st.session_state` the generations read and write. */
  type Session = map<string, Json.Value>

  const AppDescKey: string := "input_text_app_desc"
  const CodeKey: string := "code"
  const LanguageKey: string := "language_type"
  const HardwareKey: string := "hardware_name"

  /** `key in st.session_state and st.session_state[key]` (and `st.session_state.get(key)`, as a condition). */
  predicate Filled(session: Session, key: string) {
    key in session && Json.Truthy(session[key])
  }

  /** The condition shared by the guidance and the test-case buttons: stored code, language and hardware. */
  predicate CanFollowUp(session: Session) {
    Filled(session, CodeKey) && Filled(session, LanguageKey) && Filled(session, HardwareKey)
  }

  /** What a successful code generation stores: the code, the language and the hardware. */
  function RecordCode(session: Session, code: Json.Value, language: string, hardware: string): (s: Session)
    ensures s.Keys == session.Keys + {CodeKey, LanguageKey, HardwareKey}
    ensures s[CodeKey] == code && s[LanguageKey] == Json.Str(language) && s[HardwareKey] == Json.Str(hardware)
    ensures forall k :: k in session && k !in {CodeKey, LanguageKey, HardwareKey} ==> s[k] == session[k]
  {
    session[CodeKey := code][LanguageKey := Json.Str(language)][HardwareKey := Json.Str(hardware)]
  }

  /**
   * Once code generation has stored its result, guidance and test cases may
   * run exactly when the stored code is truthy and language and hardware are
   * not empty, whatever the session held before.
   */
  lemma RecordEnablesFollowUp(session: Session, code: Json.Value, language: string, hardware: string)
    ensures CanFollowUp(RecordCode(session, code, language, hardware)) <==>
      Json.Truthy(code) && language != "" && hardware != ""
  {
  }

  // ---------------------------------------------------------------------
  // The three buttons
  // ---------------------------------------------------------------------

  /**
   * The "Generate Code" button. Without a stored description: no call, the
   * missing-input error, nothing stored. Otherwise the retry loop runs over
   * the attempts, and the missing-input error is not shown, so a press shows
   * exactly one of the two outcomes; a success stores code, language and
   * hardware, three failures store nothing and leave the empty fields;
   * either way the fields are defined when rendering comes.
   */
  method GenerateCode(pressed: bool, session: Session, language: string, hardware: string,
                      replies: nat -> Outcome<Gemini.Response>, parse: Json.Parser)
    returns (newSession: Session, fields: CodeFields, calls: nat, notices: seq<Notice>, markdown: Option<string>)
    ensures !(pressed && Filled(session, AppDescKey)) ==>
      calls == 0 && newSession == session && markdown.None? &&
      notices == (if pressed then [MissingInputs(CodeGeneration)] else [])
    ensures pressed && Filled(session, AppDescKey) ==>
      1 <= calls <= MaxRetries && MissingInputs(CodeGeneration) !in notices &&
      (forall k :: 0 <= k < calls - 1 ==> CodeAttempt(replies(k), parse).Raised?) &&
      (if CodeAttempt(replies(calls - 1), parse).Returned?
       then fields == CodeAttempt(replies(calls - 1), parse).value &&
            newSession == RecordCode(session, fields.sourceCode, language, hardware) &&
            notices == Warnings(CodeGeneration, calls - 1)
       else calls == MaxRetries && fields == EmptyFields && newSession == session &&
            notices == Warnings(CodeGeneration, MaxRetries - 1) + [Exhausted(CodeGeneration, MaxRetries)]) &&
      markdown == Render(fields)
  {
    newSession, fields, calls, notices, markdown := session, EmptyFields, 0, [], None;
    if pressed && Filled(session, AppDescKey) {
      var attempt := (k: nat) => CodeAttempt(replies(k), parse);
      var succeeded;
      fields, succeeded, calls, notices := RetryLoop(CodeGeneration, attempt, EmptyFields);
      forall k | 0 <= k < calls - 1 ensures CodeAttempt(replies(k), parse).Raised? {
        assert attempt(k).Raised?;
      }
      if succeeded {
        newSession := RecordCode(session, fields.sourceCode, language, hardware);
      }
      match (fields.documentation, TextList(fields.recommendations)) {
        case (Str(doc), Some(rs)) =>
          var md := CodeModel.ResponseToMarkdown(doc, rs);
          markdown := Some(md);
        case _ =>
      }
    }
    if pressed && !Filled(session, AppDescKey) {
      notices := [MissingInputs(CodeGeneration)];
    }
  }

  /**
   * The "Get Guidence" button. Without stored code, language and hardware:
   * no call and the missing-input error. Otherwise the retry loop runs; the
   * guidance of the first call that does not raise is kept even when it is
   * `None` (a reply without text is not an exception here), and three
   * failures leave the empty string.
   */
  method GenerateGuidance(pressed: bool, session: Session, replies: nat -> Outcome<Gemini.Response>)
    returns (guidance: Option<string>, calls: nat, notices: seq<Notice>)
    ensures !(pressed && CanFollowUp(session)) ==>
      calls == 0 && guidance.None? && notices == (if pressed then [MissingInputs(Guidance)] else [])
    ensures pressed && CanFollowUp(session) ==>
      1 <= calls <= MaxRetries && MissingInputs(Guidance) !in notices &&
      (forall k :: 0 <= k < calls - 1 ==> replies(k).Raised?) &&
      (if replies(calls - 1).Returned?
       then guidance == GuidenceModel.GetGuidence(replies(calls - 1)).value &&
            notices == Warnings(Guidance, calls - 1)
       else calls == MaxRetries && guidance == Some("") &&
            notices == Warnings(Guidance, MaxRetries - 1) + [Exhausted(Guidance, MaxRetries)])
  {
    guidance, calls, notices := None, 0, [];
    if pressed {
      if CanFollowUp(session) {
        var attempt := (k: nat) => GuidenceModel.GetGuidence(replies(k));
        var succeeded;
        guidance, succeeded, calls, notices := RetryLoop(Guidance, attempt, Some(""));
        forall k | 0 <= k < calls - 1 ensures replies(k).Raised? {
          assert attempt(k).Raised?;
        }
      } else {
        notices := [MissingInputs(Guidance)];
      }
    }
  }

  /**
   * The "Generate Test Cases" button, calling `get_test_cases`. Without
   * stored code, language and hardware: no call and the missing-input
   * error. Otherwise the retry loop runs; here a reply without text raises
   * and is retried, and three failures leave the empty string.
   */
  method GenerateTestCases(pressed: bool, session: Session, replies: nat -> Outcome<Gemini.Response>)
    returns (testCases: Option<string>, calls: nat, notices: seq<Notice>)
    ensures !(pressed && CanFollowUp(session)) ==>
      calls == 0 && testCases.None? && notices == (if pressed then [MissingInputs(TestCaseGeneration)] else [])
    ensures pressed && CanFollowUp(session) ==>
      1 <= calls <= MaxRetries && MissingInputs(TestCaseGeneration) !in notices &&
      (forall k :: 0 <= k < calls - 1 ==> TestCases.GetTestCasesGemini(replies(k)).Raised?) &&
      (if TestCases.GetTestCasesGemini(replies(calls - 1)).Returned?
       then testCases == Some(TestCases.GetTestCasesGemini(replies(calls - 1)).value) &&
            notices == Warnings(TestCaseGeneration, calls - 1)
       else calls == MaxRetries && testCases == Some("") &&
            notices == Warnings(TestCaseGeneration, MaxRetries - 1) + [Exhausted(TestCaseGeneration, MaxRetries)])
  {
    testCases, calls, notices := None, 0, [];
    if pressed {
      if CanFollowUp(session) {
        var attempt := (k: nat) => TestCases.GetTestCasesGemini(replies(k));
        var succeeded, text;
        text, succeeded, calls, notices := RetryLoop(TestCaseGeneration, attempt, "");
        forall k | 0 <= k < calls - 1 ensures TestCases.GetTestCasesGemini(replies(k)).Raised? {
          assert attempt(k).Raised?;
        }
        testCases := Some(text);
      } else {
        notices := [MissingInputs(TestCaseGeneration)];
      }
    }
  }
}
