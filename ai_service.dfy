/**
 * `AiService` (src/ai/ai.service.ts): the guards of `generateQuiz` and `suggestLearningPath`,
 * the cleaning and validation of the generated text (`processQuizData`, `processPathData`),
 * and the exceptions each flow ends in. The HTTP call, `JSON.parse` and the clock are
 * parameters; the parsed document is the abstract `Json` datatype.
 */
module AiService {
  import opened Wrappers
  import opened Text
  import JsNumber
  import opened JsArray

  // ---------------------------------------------------------------------------
  // Parsed documents and JavaScript property access

  /** A value `JSON.parse` can produce (numbers as integers). */
  datatype Json =
    | JNull
    | JBool(b: bool)
    | JNumber(n: int)
    | JString(s: string)
    | JArray(items: seq<Json>)
    | JObject(fields: map<string, Json>)

  /** JavaScript truthiness of a parsed value. */
  predicate Truthy(j: Json) {
    match j
    case JNull => false
    case JBool(b) => b
    case JNumber(n) => n != 0
    case JString(s) => s != ""
    case JArray(_) => true
    case JObject(_) => true
  }

  /** Truthiness of a property that may be `undefined` (None). */
  predicate Present(v: Option<Json>) {
    v.Some? && Truthy(v.value)
  }

  predicate IsArray(v: Option<Json>) {
    v.Some? && v.value.JArray?
  }

  /** Why processing the generated text failed. */
  datatype ProcessError =
    | ParseFailed(message: string)      // `JSON.parse` threw a SyntaxError with this message
    | TypeError                         // a property of null was read, or `trim` called on a non-string
    | MissingQuestions                  // 'Invalid quiz format: questions array not found'
    | InvalidQuestion(index: nat)       // 'Invalid question format at index i'
    | InvalidPath                       // 'Invalid learning path format'
    | InvalidStep(index: nat)           // 'Invalid step format at index i'

  /** `j.key` on a value other than null: the own property, or `undefined` (None). */
  function Field(j: Json, key: string): (r: Option<Json>)
    ensures r.Some? <==> j.JObject? && key in j.fields
    ensures r.Some? ==> r.value == j.fields[key]
  {
    if j.JObject? && key in j.fields then Some(j.fields[key]) else None
  }

  /** A property that is a non-empty string: truthy, and `trim` can be called on it. */
  predicate NonEmptyString(v: Option<Json>) {
    v.Some? && v.value.JString? && v.value.s != ""
  }

  /** A property on which `v?.trim()` does not throw. */
  predicate OptionalString(v: Option<Json>) {
    v.None? || v.value.JNull? || v.value.JString?
  }

  /** `v.trim()`: only strings have it. */
  function TrimValue(v: Option<Json>): (r: Result<string, ProcessError>)
    ensures r.Ok? <==> v.Some? && v.value.JString?
    ensures r.Ok? ==> r.value == Trim(v.value.s)
  {
    if v.Some? && v.value.JString? then Ok(Trim(v.value.s)) else Err(TypeError)
  }

  /** `v?.trim() || undefined`: null and undefined give undefined, as does a string that trims to ''. */
  function TrimOptional(v: Option<Json>): (r: Result<Option<string>, ProcessError>)
    ensures r.Ok? <==> v.None? || v.value.JNull? || v.value.JString?
    ensures r.Ok? ==> OptionalFrom(v, r.value)
  {
    match v
    case None => Ok(None)
    case Some(JNull) => Ok(None)
    case Some(JString(s)) => if Trim(s) == "" then Ok(None) else Ok(Some(Trim(s)))
    case Some(_) => Err(TypeError)
  }

  predicate AllStrings(items: seq<Json>) {
    forall k :: 0 <= k < |items| ==> items[k].JString?
  }

  /** `out` is `items`, all strings, each trimmed, in order. */
  predicate TrimmedList(items: seq<Json>, out: seq<string>) {
    |out| == |items| && forall k :: 0 <= k < |items| ==> items[k].JString? && out[k] == Trim(items[k].s)
  }

  /** `items.map(x => x.trim())`: every item is trimmed, and a non-string throws a TypeError. */
  function TrimEach(items: seq<Json>): (r: Result<seq<string>, ProcessError>)
    ensures r.Ok? <==> AllStrings(items)
    ensures r.Ok? ==> TrimmedList(items, r.value)
    ensures r.Err? ==> r.error == TypeError
  {
    if AllStrings(items) then Ok(seq(|items|, k requires 0 <= k < |items| => Trim(items[k].s)))
    else Err(TypeError)
  }

  // ---------------------------------------------------------------------------
  // Cleaning the generated text

  const JSON_FENCE := "```json"
  const FENCE := "```"

  /** `raw.replace(/```json\n?/g, '').replace(/```\n?/g, '').trim()`. */
  function Clean(raw: string): (r: string)
    ensures IsTrimmed(r)
    ensures |r| <= |raw|
  {
    Trim(RemoveAll(RemoveAll(raw, JSON_FENCE), FENCE))
  }

  predicate StartsWith(s: string, p: string) {
    |s| >= |p| && s[..|p|] == p
  }

  /** Removing fences keeps the first character when it is not a backtick. */
  lemma FirstCharKept(s: string)
    requires |s| > 0 && s[0] != '`'
    ensures |RemoveAll(s, FENCE)| > 0 && RemoveAll(s, FENCE)[0] == s[0]
  {
    assert !StartsWith(s, FENCE);
  }

  /** After fence removal the text cannot begin with two backticks unless the input did. */
  lemma NoDoubleTickStart(s: string)
    requires !StartsWith(s, "``")
    ensures !StartsWith(RemoveAll(s, FENCE), "``")
  {
    if s != [] {
      assert !StartsWith(s, FENCE);
      if s[0] == '`' && |s| > 1 {
        FirstCharKept(s[1..]);
      }
    }
  }

  /** A character put before a fence-free text makes no fence, unless it is a backtick before two more. */
  lemma NoFenceInCons(c: char, tail: string)
    requires forall i :: !MarkerAt(tail, FENCE, i)
    requires c == '`' ==> !StartsWith(tail, "``")
    ensures forall i :: !MarkerAt([c] + tail, FENCE, i)
  {
    var r := [c] + tail;
    forall i ensures !MarkerAt(r, FENCE, i) {
      if 1 <= i && i + 3 <= |r| {
        var u, v := r[i..i + 3], tail[i - 1..i + 2];
        assert |u| == |v| && forall k :: 0 <= k < 3 ==> u[k] == v[k];
        assert u == v;
        assert !MarkerAt(tail, FENCE, i - 1);
      } else if i == 0 && 3 <= |r| {
        assert r[i..i + 3][0] == c && r[i..i + 3][1..] == tail[..2];
      }
    }
  }

  /** A global removal of ``` leaves no ``` behind, even where two pieces meet. */
  lemma {:induction false} NoFenceAfterRemoval(s: string)
    ensures forall i :: !MarkerAt(RemoveAll(s, FENCE), FENCE, i)
    decreases |s|
  {
    if StartsWith(s, FENCE) {
      var rest := s[|FENCE|..];
      if |rest| > 0 && rest[0] == '\n' {
        NoFenceAfterRemoval(rest[1..]);
      } else {
        NoFenceAfterRemoval(rest);
      }
    } else if s != [] {
      var tail := RemoveAll(s[1..], FENCE);
      assert RemoveAll(s, FENCE) == [s[0]] + tail;
      NoFenceAfterRemoval(s[1..]);
      if s[0] == '`' {
        assert !StartsWith(s[1..], "``");
        NoDoubleTickStart(s[1..]);
      }
      NoFenceInCons(s[0], tail);
    }
  }

  /** A slice of a fence-free string is fence-free. */
  lemma NoFenceInSlice(s: string, lo: int, hi: int)
    requires 0 <= lo <= hi <= |s|
    requires forall i :: !MarkerAt(s, FENCE, i)
    ensures forall i :: !MarkerAt(s[lo..hi], FENCE, i)
  {
    forall i ensures !MarkerAt(s[lo..hi], FENCE, i) {
      if 0 <= i && i + 3 <= hi - lo {
        var u, v := s[lo..hi][i..i + 3], s[lo + i..lo + i + 3];
        assert |u| == |v| && forall k :: 0 <= k < 3 ==> u[k] == v[k];
        assert u == v;
        assert !MarkerAt(s, FENCE, lo + i);
      }
    }
  }

  /** Trimming a fence-free string keeps it fence-free. */
  lemma NoFenceInTrim(s: string)
    requires forall i :: !MarkerAt(s, FENCE, i)
    ensures forall i :: !MarkerAt(Trim(s), FENCE, i)
  {
    var t := TrimStart(s);
    assert t == s[|s| - |t|..|s|];
    NoFenceInSlice(s, |s| - |t|, |s|);
    var e := TrimEnd(t);
    assert e == t[0..|e|];
    NoFenceInSlice(t, 0, |e|);
  }

  /** The cleaned text holds no code-fence marker and no surrounding whitespace. */
  lemma CleanRemovesFences(raw: string)
    ensures forall i :: !MarkerAt(Clean(raw), FENCE, i)
    ensures IsTrimmed(Clean(raw))
  {
    NoFenceAfterRemoval(RemoveAll(raw, JSON_FENCE));
    NoFenceInTrim(RemoveAll(RemoveAll(raw, JSON_FENCE), FENCE));
  }

  /** Every ```json starts with ```, so a fence-free text holds no ```json either. */
  lemma NoJsonFenceWithoutFence(c: string)
    requires forall i :: !MarkerAt(c, FENCE, i)
    ensures !Occurs(c, JSON_FENCE)
  {
    forall i ensures !MarkerAt(c, JSON_FENCE, i) {
      if 0 <= i && i + 7 <= |c| {
        assert !MarkerAt(c, FENCE, i);
        assert c[i..i + 3] == c[i..i + 7][..3];
      }
    }
  }

  /** Cleaning already cleaned text changes nothing. */
  lemma CleanIdempotent(raw: string)
    ensures Clean(Clean(raw)) == Clean(raw)
  {
    var c := Clean(raw);
    CleanRemovesFences(raw);
    NoJsonFenceWithoutFence(c);
    RemoveAllAbsent(c, JSON_FENCE);
    assert !Occurs(c, FENCE);
    RemoveAllAbsent(c, FENCE);
    TrimOfTrimmed(c);
  }

  // ---------------------------------------------------------------------------
  // processQuizData

  datatype QuizQuestion = QuizQuestion(question: string, options: seq<string>, answer: string)

  datatype ProcessedQuiz = ProcessedQuiz(questions: seq<QuizQuestion>, totalQuestions: int, createdAt: int)

  /** A question object that passes the format check and whose fields can be trimmed. */
  predicate ValidQuestion(q: Json) {
    && q.JObject?
    && NonEmptyString(Field(q, "question"))
    && IsArray(Field(q, "options")) && AllStrings(Field(q, "options").value.items)
    && NonEmptyString(Field(q, "answer"))
  }

  /** `out` is the question `q` with its text, every option and its answer trimmed. */
  predicate QuestionFrom(q: Json, out: QuizQuestion) {
    && ValidQuestion(q)
    && out.question == Trim(Field(q, "question").value.s)
    && out.answer == Trim(Field(q, "answer").value.s)
    && TrimmedList(Field(q, "options").value.items, out.options)
  }

  /** The format check `!q.question || !q.options || !Array.isArray(q.options) || !q.answer` passes. */
  predicate QuestionShape(q: Json) {
    Present(Field(q, "question")) && IsArray(Field(q, "options")) && Present(Field(q, "answer"))
  }

  /**
   * The mapping callback for the question at `index`: null throws a TypeError, a failed
   * format check 'Invalid question format at index i', a non-string to trim a TypeError.
   */
  function ProcessQuestion(q: Json, index: nat): (r: Result<QuizQuestion, ProcessError>)
    ensures r.Ok? <==> ValidQuestion(q)
    ensures r.Ok? ==> QuestionFrom(q, r.value)
    ensures q.JNull? ==> r == Err(TypeError)
    ensures !q.JNull? && !QuestionShape(q) ==> r == Err(InvalidQuestion(index))
    ensures QuestionShape(q) && !ValidQuestion(q) ==> r == Err(TypeError)
  {
    if q.JNull? then Err(TypeError)
    else if !QuestionShape(q) then Err(InvalidQuestion(index))
    else NormaliseQuestion(q)
  }

  /** The fields of a question that passed the format check, trimmed; `trim` on a non-string throws. */
  function NormaliseQuestion(q: Json): (r: Result<QuizQuestion, ProcessError>)
    requires QuestionShape(q)
    ensures r.Ok? <==> ValidQuestion(q)
    ensures r.Ok? ==> QuestionFrom(q, r.value)
    ensures r.Err? ==> r.error == TypeError
  {
    var text, trimmed := TrimValue(Field(q, "question")), TrimEach(Field(q, "options").value.items);
    var ans := TrimValue(Field(q, "answer"));
    if text.Err? || trimmed.Err? || ans.Err? then Err(TypeError)
    else Ok(QuizQuestion(text.value, trimmed.value, ans.value))
  }

  /** `questions.map(...)`: every question normalised in order, or the first question's error. */
  function ProcessQuestions(items: seq<Json>): (r: Result<seq<QuizQuestion>, ProcessError>)
    ensures r.Ok? <==> forall k :: 0 <= k < |items| ==> ValidQuestion(items[k])
    ensures r.Ok? ==> |r.value| == |items| && forall k :: 0 <= k < |items| ==> QuestionFrom(items[k], r.value[k])
  {
    MapFrom(items, ProcessQuestion, 0)
  }

  /** The question a failed map reports is the first invalid one. */
  lemma FirstInvalidQuestion(items: seq<Json>, j: nat)
    requires ProcessQuestions(items) == Err(InvalidQuestion(j))
    ensures j < |items| && !ValidQuestion(items[j])
    ensures !items[j].JNull? && !QuestionShape(items[j])
    ensures forall k :: 0 <= k < j ==> ValidQuestion(items[k])
  {
    var first := MapFromFirstError(items, ProcessQuestion, 0);
    assert ProcessQuestion(items[first], first) == Err(InvalidQuestion(j));
    forall k | 0 <= k < j ensures ValidQuestion(items[k]) {
      assert ProcessQuestion(items[k], k).Ok?;
    }
  }

  /** A parsed document `processQuizData` accepts. */
  predicate QuizDocOk(doc: Json) {
    && IsArray(Field(doc, "questions"))
    && var items := Field(doc, "questions").value.items;
       forall k :: 0 <= k < |items| ==> ValidQuestion(items[k])
  }

  /** `processQuizData` after `JSON.parse`: require a `questions` array and trim every question in order. */
  function ProcessQuizDoc(doc: Json, now: int): (r: Result<ProcessedQuiz, ProcessError>)
    ensures r.Ok? <==> QuizDocOk(doc)
    ensures r.Ok? ==>
      && var items := Field(doc, "questions").value.items;
         && r.value.totalQuestions == |r.value.questions| == |items|
         && (forall k :: 0 <= k < |items| ==> QuestionFrom(items[k], r.value.questions[k]))
         && r.value.createdAt == now
    ensures doc.JObject? && !IsArray(Field(doc, "questions")) ==> r == Err(MissingQuestions)
    ensures r.Err? && r.error.InvalidQuestion? ==>
      IsArray(Field(doc, "questions")) && ProcessQuestions(Field(doc, "questions").value.items) == Err(r.error)
  {
    if doc.JNull? then Err(TypeError)
    else
      var questions := Field(doc, "questions");
      if !Present(questions) || !IsArray(questions) then Err(MissingQuestions)
      else
        match ProcessQuestions(questions.value.items)
        case Err(e) => Err(e)
        case Ok(qs) => Ok(ProcessedQuiz(qs, |qs|, now))
  }

  /**
   * `processQuizData`: clean the generated text, parse it, and hand the document on;
   * a SyntaxError from the parser is reported as such.
   */
  function ProcessQuizData(raw: string, parse: string -> Result<Json, string>, now: int): (r: Result<ProcessedQuiz, ProcessError>)
    ensures r.Ok? <==> parse(Clean(raw)).Ok? && QuizDocOk(parse(Clean(raw)).value)
    ensures parse(Clean(raw)).Err? ==> r == Err(ParseFailed(parse(Clean(raw)).error))
    ensures parse(Clean(raw)).Ok? ==> r == ProcessQuizDoc(parse(Clean(raw)).value, now)
  {
    match parse(Clean(raw))
    case Err(m) => Err(ParseFailed(m))
    case Ok(doc) => ProcessQuizDoc(doc, now)
  }

  // ---------------------------------------------------------------------------
  // processPathData

  datatype LearningStep = LearningStep(
    title: string,
    description: string,
    estimatedTime: Option<string>,
    resources: Option<seq<string>>)

  datatype ProcessedPath = ProcessedPath(
    title: string,
    description: string,
    steps: seq<LearningStep>,
    totalSteps: int,
    estimatedDuration: Option<string>,
    preferences: seq<string>)

  /** A step object that passes the format check and whose fields can be trimmed. */
  predicate ValidStep(step: Json) {
    && step.JObject?
    && NonEmptyString(Field(step, "title"))
    && NonEmptyString(Field(step, "description"))
    && OptionalString(Field(step, "estimatedTime"))
    && (IsArray(Field(step, "resources")) ==> AllStrings(Field(step, "resources").value.items))
  }

  /** `out` is `v?.trim() || undefined`: a string that is non-empty once trimmed, trimmed. */
  predicate OptionalFrom(v: Option<Json>, out: Option<string>) {
    && (out.Some? ==> v.Some? && v.value.JString? && out.value == Trim(v.value.s) != "")
    && (out.None? && v.Some? && v.value.JString? ==> Trim(v.value.s) == "")
  }

  /** `out` holds the resources of a step only when they form an array, each trimmed. */
  predicate ResourcesFrom(v: Option<Json>, out: Option<seq<string>>) {
    && (out.Some? <==> IsArray(v))
    && (out.Some? ==> TrimmedList(v.value.items, out.value))
  }

  /** `out` is the step `j` normalised. */
  predicate StepFrom(j: Json, out: LearningStep) {
    && ValidStep(j)
    && out.title == Trim(Field(j, "title").value.s)
    && out.description == Trim(Field(j, "description").value.s)
    && OptionalFrom(Field(j, "estimatedTime"), out.estimatedTime)
    && ResourcesFrom(Field(j, "resources"), out.resources)
  }

  /** `Array.isArray(v) ? v.map(r => r.trim()) : undefined`. */
  function TrimResources(v: Option<Json>): (r: Result<Option<seq<string>>, ProcessError>)
    ensures r.Ok? <==> (IsArray(v) ==> AllStrings(v.value.items))
    ensures r.Ok? ==> ResourcesFrom(v, r.value)
  {
    if IsArray(v) then
      match TrimEach(v.value.items)
      case Err(e) => Err(e)
      case Ok(items) => Ok(Some(items))
    else Ok(None)
  }

  /** The format check `!step.title || !step.description` passes. */
  predicate StepShape(step: Json) {
    Present(Field(step, "title")) && Present(Field(step, "description"))
  }

  /**
   * The mapping callback for the step at `index`: null throws a TypeError, a failed format
   * check 'Invalid step format at index i', a field `trim` cannot be called on a TypeError.
   */
  function ProcessStep(step: Json, index: nat): (r: Result<LearningStep, ProcessError>)
    ensures r.Ok? <==> ValidStep(step)
    ensures r.Ok? ==> StepFrom(step, r.value)
    ensures step.JNull? ==> r == Err(TypeError)
    ensures !step.JNull? && !StepShape(step) ==> r == Err(InvalidStep(index))
    ensures StepShape(step) && !ValidStep(step) ==> r == Err(TypeError)
  {
    if step.JNull? then Err(TypeError)
    else if !StepShape(step) then Err(InvalidStep(index))
    else NormaliseStep(step)
  }

  /** The fields of a step that passed the format check, trimmed; `trim` on a non-string throws. */
  function NormaliseStep(step: Json): (r: Result<LearningStep, ProcessError>)
    requires StepShape(step)
    ensures r.Ok? <==> ValidStep(step)
    ensures r.Ok? ==> StepFrom(step, r.value)
    ensures r.Err? ==> r.error == TypeError
  {
    var t, d := TrimValue(Field(step, "title")), TrimValue(Field(step, "description"));
    var time, res := TrimOptional(Field(step, "estimatedTime")), TrimResources(Field(step, "resources"));
    assert t.Ok? && d.Ok? <==> NonEmptyString(Field(step, "title")) && NonEmptyString(Field(step, "description"));
    assert time.Ok? <==> OptionalString(Field(step, "estimatedTime"));
    if t.Err? || d.Err? || time.Err? || res.Err? then Err(TypeError)
    else Ok(LearningStep(t.value, d.value, time.value, res.value))
  }

  /** `steps.map(...)`: every step normalised in order, or the first step's error. */
  function ProcessSteps(steps: seq<Json>): (r: Result<seq<LearningStep>, ProcessError>)
    ensures r.Ok? <==> forall k :: 0 <= k < |steps| ==> ValidStep(steps[k])
    ensures r.Ok? ==> |r.value| == |steps| && forall k :: 0 <= k < |steps| ==> StepFrom(steps[k], r.value[k])
  {
    MapFrom(steps, ProcessStep, 0)
  }

  /** The step a failed map reports is the first invalid one. */
  lemma FirstInvalidStep(steps: seq<Json>, j: nat)
    requires ProcessSteps(steps) == Err(InvalidStep(j))
    ensures j < |steps| && !ValidStep(steps[j])
    ensures !steps[j].JNull? && !StepShape(steps[j])
    ensures forall k :: 0 <= k < j ==> ValidStep(steps[k])
  {
    var first := MapFromFirstError(steps, ProcessStep, 0);
    assert ProcessStep(steps[first], first) == Err(InvalidStep(j));
    forall k | 0 <= k < j ensures ValidStep(steps[k]) {
      assert ProcessStep(steps[k], k).Ok?;
    }
  }

  /** A parsed document `processPathData` accepts. */
  predicate PathDocOk(doc: Json) {
    && NonEmptyString(Field(doc, "title"))
    && IsArray(Field(doc, "steps"))
    && (var steps := Field(doc, "steps").value.items;
        forall k :: 0 <= k < |steps| ==> ValidStep(steps[k]))
    && OptionalString(Field(doc, "description"))
    && OptionalString(Field(doc, "estimatedDuration"))
  }

  /** The path around its already normalised steps: title, description and duration trimmed. */
  function PathAround(doc: Json, steps: seq<LearningStep>, preferences: seq<string>): (r: Result<ProcessedPath, ProcessError>)
    ensures r.Ok? <==>
      && Field(doc, "title").Some? && Field(doc, "title").value.JString?
      && OptionalString(Field(doc, "description")) && OptionalString(Field(doc, "estimatedDuration"))
    ensures r.Err? ==> r.error == TypeError
    ensures r.Ok? ==>
      && r.value.steps == steps && r.value.totalSteps == |steps|
      && r.value.title == Trim(Field(doc, "title").value.s)
      && r.value.preferences == preferences
      && OptionalFrom(Field(doc, "description"), if r.value.description == "" then None else Some(r.value.description))
      && OptionalFrom(Field(doc, "estimatedDuration"), r.value.estimatedDuration)
  {
    var t := TrimValue(Field(doc, "title"));
    var d := TrimOptional(Field(doc, "description"));
    var duration := TrimOptional(Field(doc, "estimatedDuration"));
    if t.Err? || d.Err? || duration.Err? then Err(TypeError)
    else Ok(ProcessedPath(t.value, d.value.GetOr(""), steps, |steps|, duration.value, preferences))
  }

  /** `processPathData` after `JSON.parse`: validate the document and normalise it. */
  function ProcessPathDoc(doc: Json, preferences: seq<string>): (r: Result<ProcessedPath, ProcessError>)
    ensures r.Ok? <==> PathDocOk(doc)
    ensures r.Ok? ==>
      && var steps := Field(doc, "steps").value.items;
         && |r.value.steps| == |steps|
         && (forall k :: 0 <= k < |steps| ==> StepFrom(steps[k], r.value.steps[k]))
         && r == PathAround(doc, r.value.steps, preferences)
    ensures r.Err? && r.error.InvalidStep? ==>
      IsArray(Field(doc, "steps")) && ProcessSteps(Field(doc, "steps").value.items) == Err(r.error)
  {
    if doc.JNull? then Err(TypeError)
    else
      var title, steps := Field(doc, "title"), Field(doc, "steps");
      if !Present(title) || !Present(steps) || !IsArray(steps) then Err(InvalidPath)
      else
        var mapped := ProcessSteps(steps.value.items);
        if mapped.Err? then Err(mapped.error)
        else PathAround(doc, mapped.value, preferences)
  }

  /**
   * `processPathData`: clean the generated text, parse it, and hand the document on;
   * a SyntaxError from the parser is reported as such.
   */
  function ProcessPathData(raw: string, preferences: seq<string>, parse: string -> Result<Json, string>): (r: Result<ProcessedPath, ProcessError>)
    ensures r.Ok? <==> parse(Clean(raw)).Ok? && PathDocOk(parse(Clean(raw)).value)
    ensures parse(Clean(raw)).Err? ==> r == Err(ParseFailed(parse(Clean(raw)).error))
    ensures parse(Clean(raw)).Ok? ==> r == ProcessPathDoc(parse(Clean(raw)).value, preferences)
  {
    match parse(Clean(raw))
    case Err(m) => Err(ParseFailed(m))
    case Ok(doc) => ProcessPathDoc(doc, preferences)
  }

  // ---------------------------------------------------------------------------
  // Which question or step is reported

  /** Processing text that is already clean gives the same outcome: cleaning is idempotent. */
  lemma ProcessingCleanedText(raw: string, preferences: seq<string>, parse: string -> Result<Json, string>, now: int)
    ensures ProcessQuizData(Clean(raw), parse, now) == ProcessQuizData(raw, parse, now)
    ensures ProcessPathData(Clean(raw), preferences, parse) == ProcessPathData(raw, preferences, parse)
  {
    CleanIdempotent(raw);
  }


  /** `processQuizData` names the first question, in order, that fails the format check. */
  lemma QuizReportsFirstInvalidQuestion(raw: string, parse: string -> Result<Json, string>, now: int, j: nat)
    requires ProcessQuizData(raw, parse, now) == Err(InvalidQuestion(j))
    ensures parse(Clean(raw)).Ok? && IsArray(Field(parse(Clean(raw)).value, "questions"))
    ensures var items := Field(parse(Clean(raw)).value, "questions").value.items;
      && j < |items| && !ValidQuestion(items[j])
      && forall k :: 0 <= k < j ==> ValidQuestion(items[k])
  {
    FirstInvalidQuestion(Field(parse(Clean(raw)).value, "questions").value.items, j);
  }

  /** `processPathData` names the first step, in order, that fails the format check. */
  lemma PathReportsFirstInvalidStep(raw: string, preferences: seq<string>, parse: string -> Result<Json, string>, j: nat)
    requires ProcessPathData(raw, preferences, parse) == Err(InvalidStep(j))
    ensures parse(Clean(raw)).Ok? && IsArray(Field(parse(Clean(raw)).value, "steps"))
    ensures var steps := Field(parse(Clean(raw)).value, "steps").value.items;
      && j < |steps| && !ValidStep(steps[j])
      && forall k :: 0 <= k < j ==> ValidStep(steps[k])
  {
    FirstInvalidStep(Field(parse(Clean(raw)).value, "steps").value.items, j);
  }

  // ---------------------------------------------------------------------------
  // The request flows: guards, then the guarded block and its catch

  /** The classes of exception the flows end in. */
  datatype ExceptionKind = PlainError | Unauthorized | InternalServerError

  datatype Thrown = Thrown(kind: ExceptionKind, message: string)

  /** What the guarded block raised: an axios error (with the HTTP status, if any) or anything else. */
  datatype Raised =
    | AxiosError(status: Option<int>, apiMessage: Option<string>, message: string)
    | OtherError(message: string)

  /** What the call to the generation endpoint gave back. */
  datatype GeminiReply =
    | Replied(text: Option<string>)   // the text of the first part of the first candidate, if any
    | RequestFailed(status: Option<int>, apiMessage: Option<string>, message: string)

  const EMPTY_TEXT := "Text input cannot be empty."
  const EMPTY_PREFERENCES := "Preferences cannot be empty."
  const INVALID_USER_ID := "Valid userId is required."
  const NO_QUIZ_TEXT := "Failed to extract quiz data from Gemini API response."
  const NO_PATH_TEXT := "Failed to extract path data from Gemini API response."
  /** The wording of a runtime TypeError belongs to the JavaScript engine; one fixed text stands for it. */
  const TYPE_ERROR_TEXT := "TypeError"

  /** `error.message` of what `processQuizData` and `processPathData` caught. */
  function ProcessErrorText(e: ProcessError): string {
    match e
    case ParseFailed(m) => m
    case TypeError => TYPE_ERROR_TEXT
    case MissingQuestions => "Invalid quiz format: questions array not found"
    case InvalidQuestion(i) => "Invalid question format at index " + JsNumber.NatToString(i)
    case InvalidPath => "Invalid learning path format"
    case InvalidStep(i) => "Invalid step format at index " + JsNumber.NatToString(i)
  }

  function UserNotFoundText(userId: int): string {
    "User with id " + JsNumber.IntToString(userId) + " not found"
  }

  /** `!userId || userId <= 0` rejects it; undefined is None. */
  predicate ValidUserId(userId: Option<int>) {
    userId.Some? && userId.value > 0
  }

  /** The two checks `generateQuiz` makes before anything else: the text first, then the user id. */
  function QuizGuard(userId: Option<int>, text: Option<string>): (r: Option<Thrown>)
    ensures r.None? <==> text.Some? && Trim(text.value) != "" && ValidUserId(userId)
    ensures (text.None? || Trim(text.value) == "") ==> r == Some(Thrown(PlainError, EMPTY_TEXT))
    ensures r.Some? && r.value.message != EMPTY_TEXT ==> r == Some(Thrown(PlainError, INVALID_USER_ID))
  {
    if text.None? || text.value == "" || Trim(text.value) == "" then Some(Thrown(PlainError, EMPTY_TEXT))
    else if !ValidUserId(userId) then Some(Thrown(PlainError, INVALID_USER_ID))
    else None
  }

  /** The two checks `suggestLearningPath` makes: the preferences first, then the user id. */
  function PathGuard(userId: Option<int>, preferences: Option<seq<string>>): (r: Option<Thrown>)
    ensures r.None? <==> preferences.Some? && |preferences.value| > 0 && ValidUserId(userId)
    ensures (preferences.None? || preferences.value == []) ==> r == Some(Thrown(PlainError, EMPTY_PREFERENCES))
    ensures r.Some? && r.value.message != EMPTY_PREFERENCES ==> r == Some(Thrown(PlainError, INVALID_USER_ID))
  {
    if preferences.None? || |preferences.value| == 0 then Some(Thrown(PlainError, EMPTY_PREFERENCES))
    else if !ValidUserId(userId) then Some(Thrown(PlainError, INVALID_USER_ID))
    else None
  }

  /** `error.response?.data?.error?.message || error.message`. */
  function AxiosText(e: Raised): (r: string)
    requires e.AxiosError?
    ensures e.apiMessage.Some? && e.apiMessage.value != "" ==> r == e.apiMessage.value
    ensures e.apiMessage.None? || e.apiMessage.value == "" ==> r == e.message
  {
    if e.apiMessage.Some? && e.apiMessage.value != "" then e.apiMessage.value else e.message
  }

  /** The catch of `generateQuiz`: HTTP 401 and 429 become Unauthorized, 400 a plain Error, the rest InternalServerError. */
  function QuizCatch(e: Raised): (r: Thrown)
    ensures r.kind == Unauthorized <==> e.AxiosError? && (e.status == Some(401) || e.status == Some(429))
    ensures r.kind == PlainError <==> e.AxiosError? && e.status == Some(400)
    ensures r.kind == InternalServerError ==> r.message == "Failed to generate quiz: " + e.message
    ensures e.AxiosError? && e.status == Some(401) ==> r.message == "Gemini API Unauthorized: " + AxiosText(e)
    ensures e.AxiosError? && e.status == Some(429) ==> r.message == "Gemini API Rate Limited: " + AxiosText(e)
    ensures e.AxiosError? && e.status == Some(400) ==> r.message == "Invalid request to Gemini API: " + AxiosText(e)
  {
    if e.AxiosError? && e.status == Some(401) then Thrown(Unauthorized, "Gemini API Unauthorized: " + AxiosText(e))
    else if e.AxiosError? && e.status == Some(429) then Thrown(Unauthorized, "Gemini API Rate Limited: " + AxiosText(e))
    else if e.AxiosError? && e.status == Some(400) then Thrown(PlainError, "Invalid request to Gemini API: " + AxiosText(e))
    else Thrown(InternalServerError, "Failed to generate quiz: " + e.message)
  }

  /** The generated text: the request's failure, or its text when that is truthy. */
  function ReplyText(reply: GeminiReply, missing: string): (r: Result<string, Raised>)
    ensures r.Ok? <==> reply.Replied? && reply.text.Some? && reply.text.value != ""
    ensures r.Ok? ==> r.value == reply.text.value
    ensures reply.RequestFailed? ==> r == Err(AxiosError(reply.status, reply.apiMessage, reply.message))
    ensures reply.Replied? && !r.Ok? ==> r == Err(OtherError(missing))
  {
    match reply
    case RequestFailed(status, api, m) => Err(AxiosError(status, api, m))
    case Replied(text) => if text.Some? && text.value != "" then Ok(text.value) else Err(OtherError(missing))
  }

  datatype QuizReply = QuizReply(userId: int, username: string, questions: seq<QuizQuestion>, questionCount: int)

  /**
   * `generateQuiz`. `users` maps ids to usernames; `reply` is the endpoint's answer. The saved
   * quiz's id and timestamps are not part of the reply modelled here.
   */
  function GenerateQuiz(userId: Option<int>, text: Option<string>, users: map<int, string>, reply: GeminiReply,
                        parse: string -> Result<Json, string>, now: int): (r: Result<QuizReply, Thrown>)
    ensures QuizGuard(userId, text).Some? ==> r == Err(QuizGuard(userId, text).value)
    ensures QuizGuard(userId, text).None? && userId.value !in users ==>
      r == Err(Thrown(InternalServerError, "Failed to generate quiz: " + UserNotFoundText(userId.value)))
    ensures r.Err? && r.error.kind == Unauthorized <==>
      && QuizGuard(userId, text).None? && userId.value in users
      && reply.RequestFailed? && (reply.status == Some(401) || reply.status == Some(429))
    ensures r.Err? && r.error.kind == PlainError <==>
      || QuizGuard(userId, text).Some?
      || (userId.Some? && userId.value in users && reply.RequestFailed? && reply.status == Some(400))
    ensures r.Ok? <==>
      && QuizGuard(userId, text).None? && userId.value in users
      && ReplyText(reply, NO_QUIZ_TEXT).Ok? && ProcessQuizData(ReplyText(reply, NO_QUIZ_TEXT).value, parse, now).Ok?
    ensures r.Ok? ==>
      && r.value.userId == userId.value && r.value.username == users[userId.value]
      && r.value.questions == ProcessQuizData(reply.text.value, parse, now).value.questions
      && r.value.questionCount == |r.value.questions|
  {
    var guard := QuizGuard(userId, text);
    if guard.Some? then Err(guard.value)
    else
      var id := userId.value;
      if id !in users then Err(QuizCatch(OtherError(UserNotFoundText(id))))
      else
        var raw := ReplyText(reply, NO_QUIZ_TEXT);
        if raw.Err? then Err(QuizCatch(raw.error))
        else
          var processed := ProcessQuizData(raw.value, parse, now);
          if processed.Err? then
            Err(QuizCatch(OtherError("Failed to process quiz data: " + ProcessErrorText(processed.error))))
          else Ok(QuizReply(id, users[id], processed.value.questions, processed.value.totalQuestions))
  }

  datatype PathReply = PathReply(
    userId: int,
    username: string,
    title: string,
    description: string,
    steps: seq<LearningStep>,
    totalSteps: int,
    estimatedDuration: Option<string>,
    preferences: seq<string>)

  /** The catch of `suggestLearningPath`: everything becomes InternalServerError. */
  function PathCatch(e: Raised): (r: Thrown)
    ensures r.kind == InternalServerError
    ensures r.message == "Failed to generate learning path: " + e.message
  {
    Thrown(InternalServerError, "Failed to generate learning path: " + e.message)
  }

  /** `suggestLearningPath`, on the same terms as `GenerateQuiz`. */
  function SuggestLearningPath(userId: Option<int>, preferences: Option<seq<string>>, users: map<int, string>,
                               reply: GeminiReply, parse: string -> Result<Json, string>): (r: Result<PathReply, Thrown>)
    ensures PathGuard(userId, preferences).Some? ==> r == Err(PathGuard(userId, preferences).value)
    ensures PathGuard(userId, preferences).None? && r.Err? ==> r.error.kind == InternalServerError
    ensures PathGuard(userId, preferences).None? && userId.value !in users ==>
      r == Err(Thrown(InternalServerError, "Failed to generate learning path: " + UserNotFoundText(userId.value)))
    ensures r.Ok? <==>
      && PathGuard(userId, preferences).None? && userId.value in users
      && ReplyText(reply, NO_PATH_TEXT).Ok?
      && ProcessPathData(ReplyText(reply, NO_PATH_TEXT).value, preferences.value, parse).Ok?
    ensures r.Ok? ==>
      && r.value.userId == userId.value && r.value.username == users[userId.value]
      && var p := ProcessPathData(reply.text.value, preferences.value, parse).value;
         && r.value.title == p.title && r.value.description == p.description
         && r.value.steps == p.steps && r.value.estimatedDuration == p.estimatedDuration
         && r.value.preferences == preferences.value
         && r.value.totalSteps == |r.value.steps|
  {
    var guard := PathGuard(userId, preferences);
    if guard.Some? then Err(guard.value)
    else
      var id := userId.value;
      if id !in users then Err(PathCatch(OtherError(UserNotFoundText(id))))
      else
        var raw := ReplyText(reply, NO_PATH_TEXT);
        if raw.Err? then Err(PathCatch(raw.error))
        else
          var processed := ProcessPathData(raw.value, preferences.value, parse);
          if processed.Err? then
            Err(PathCatch(OtherError("Failed to process learning path data: " + ProcessErrorText(processed.error))))
          else
            var p := processed.value;
            Ok(PathReply(id, users[id], p.title, p.description, p.steps, p.totalSteps, p.estimatedDuration, p.preferences))
  }
}
