/**
 * `QuestionController` (src/question/question.controller.ts): how each handler turns its route
 * and query strings into the call it makes on the question service, and the BadRequest it
 * raises instead. Query values are `Option<string>` (None when the parameter is absent).
 */
module QuestionController {
  import opened Wrappers
  import opened Text
  import opened JsNumber
  import opened JsArray

  /** A query value is truthy when it is present and not the empty string. */
  predicate Given(q: Option<string>) {
    q.Some? && q.value != ""
  }

  /** `q ? parseInt(q) : fallback`: NaN passes through when the text is not a number. */
  function IntOr(q: Option<string>, fallback: int): (r: Num)
    ensures !Given(q) ==> r == Num(fallback)
    ensures Given(q) ==> r == ParseInt(q.value)
  {
    if Given(q) then ParseInt(q.value) else Num(fallback)
  }

  /** A number a client writes into the query string is read back unchanged. */
  lemma IntOrReadsBack(n: int, fallback: int)
    ensures IntOr(Some(IntToString(n)), fallback) == Num(n)
  {
    ParseIntToString(n);
  }

  /** `onlyActive !== 'false'`: every other value, and no value at all, means true. */
  function OnlyActive(q: Option<string>): (r: bool)
    ensures r <==> q != Some("false")
  {
    !(q.Some? && q.value == "false")
  }

  datatype Filters = Filters(quizCategory: Option<string>, quizLevel: Option<string>, questionType: Option<string>)

  datatype PageOptions = PageOptions(
    filters: Filters,
    difficulty: Option<Num>,
    limit: Num,
    offset: Num,
    search: Option<string>,
    onlyActive: bool)

  /** The default page size of the paged handlers, and of `all/simple`. */
  const DEFAULT_LIMIT := 20
  const SIMPLE_LIMIT := 50
  /** The page size `raw/limit/:limit` falls back to when its value is 0 or not a number. */
  const RAW_LIMIT := 50

  /** The options object of the paged handlers; `limit` falls back to `defaultLimit` and `offset` to 0. */
  function Paging(filters: Filters, difficulty: Option<string>, limit: Option<string>, offset: Option<string>,
                  search: Option<string>, onlyActive: Option<string>, defaultLimit: int): (r: PageOptions)
    ensures r.filters == filters && r.search == search
    ensures r.difficulty.None? <==> !Given(difficulty)
    ensures r.difficulty.Some? ==> r.difficulty.value == ParseInt(difficulty.value)
    ensures !Given(limit) ==> r.limit == Num(defaultLimit)
    ensures Given(limit) ==> r.limit == ParseInt(limit.value)
    ensures !Given(offset) ==> r.offset == Num(0)
    ensures Given(offset) ==> r.offset == ParseInt(offset.value)
    ensures r.onlyActive <==> onlyActive != Some("false")
  {
    PageOptions(filters, if Given(difficulty) then Some(ParseInt(difficulty.value)) else None,
                IntOr(limit, defaultLimit), IntOr(offset, 0), search, OnlyActive(onlyActive))
  }

  /** The question-service call a handler ends in. */
  datatype ServiceCall =
    | ByCourse(courseId: int, options: PageOptions)
    | ByCourseSimple(courseId: int, filters: Filters, onlyActive: bool)
    | ByCourseAndLanguage(courseId: int, languageId: int, options: PageOptions)
    | ByLessons(lessonIds: seq<int>, filters: Filters, onlyActive: bool)
    | Flow(courseId: int, languageId: int, filters: Filters)
    | LessonsByCourseAndLanguage(courseId: int, languageId: int, onlyActive: bool)
    | LessonsByCourse(courseId: int, onlyActive: bool)
    | All(options: PageOptions)
    | AllSimple(options: PageOptions)
    | AllLimited(limit: int)

  const COURSE_ID_INVALID := "courseId must be a valid number"
  const IDS_INVALID := "courseId and languageId must be valid numbers"
  const LESSON_IDS_REQUIRED := "lessonIds parameter is required"
  const QUESTIONS_FAILED := "Failed to get questions: "
  const LESSON_QUESTIONS_FAILED := "Failed to get questions by lesson IDs: "
  const FLOW_FAILED := "Failed to get questions flow: "
  const LESSONS_FAILED := "Failed to get lessons: "
  const ALL_FAILED := "Failed to get all questions: "

  /** `GET by-course/:courseId`. */
  function GetQuestionsByCourseId(courseId: string, filters: Filters, difficulty: Option<string>, limit: Option<string>,
                                  offset: Option<string>, onlyActive: Option<string>): (r: Result<ServiceCall, string>)
    ensures r.Err? <==> ParseInt(courseId).NaN?
    ensures r.Err? ==> r.error == QUESTIONS_FAILED + COURSE_ID_INVALID
    ensures r.Ok? ==>
      && r.value.ByCourse? && ParseInt(courseId) == Num(r.value.courseId)
      && r.value.options == Paging(filters, difficulty, limit, offset, None, onlyActive, DEFAULT_LIMIT)
  {
    match ParseInt(courseId)
    case NaN => Err(QUESTIONS_FAILED + COURSE_ID_INVALID)
    case Num(id) => Ok(ByCourse(id, Paging(filters, difficulty, limit, offset, None, onlyActive, DEFAULT_LIMIT)))
  }

  /** `GET simple/by-course/:courseId`. */
  function GetQuestionsByCourseIdSimple(courseId: string, filters: Filters, onlyActive: Option<string>): (r: Result<ServiceCall, string>)
    ensures r.Err? <==> ParseInt(courseId).NaN?
    ensures r.Err? ==> r.error == QUESTIONS_FAILED + COURSE_ID_INVALID
    ensures r.Ok? ==>
      && r.value.ByCourseSimple? && ParseInt(courseId) == Num(r.value.courseId)
      && r.value.filters == filters && (r.value.onlyActive <==> onlyActive != Some("false"))
  {
    match ParseInt(courseId)
    case NaN => Err(QUESTIONS_FAILED + COURSE_ID_INVALID)
    case Num(id) => Ok(ByCourseSimple(id, filters, OnlyActive(onlyActive)))
  }

  /** Both path ids, or the message for when either is not a number. */
  function ParseIdPair(courseId: string, languageId: string): (r: Result<(int, int), string>)
    ensures r.Err? <==> ParseInt(courseId).NaN? || ParseInt(languageId).NaN?
    ensures r.Err? ==> r.error == IDS_INVALID
    ensures r.Ok? ==> ParseInt(courseId) == Num(r.value.0) && ParseInt(languageId) == Num(r.value.1)
  {
    match (ParseInt(courseId), ParseInt(languageId))
    case (Num(c), Num(l)) => Ok((c, l))
    case _ => Err(IDS_INVALID)
  }

  /** `GET by-course-language/:courseId/:languageId`. */
  function GetQuestionsByCourseAndLanguage(courseId: string, languageId: string, filters: Filters, difficulty: Option<string>,
                                           limit: Option<string>, offset: Option<string>, onlyActive: Option<string>): (r: Result<ServiceCall, string>)
    ensures r.Err? <==> ParseInt(courseId).NaN? || ParseInt(languageId).NaN?
    ensures r.Err? ==> r.error == QUESTIONS_FAILED + IDS_INVALID
    ensures r.Ok? ==>
      && r.value.ByCourseAndLanguage?
      && ParseInt(courseId) == Num(r.value.courseId) && ParseInt(languageId) == Num(r.value.languageId)
      && r.value.options == Paging(filters, difficulty, limit, offset, None, onlyActive, DEFAULT_LIMIT)
  {
    match ParseIdPair(courseId, languageId)
    case Err(e) => Err(QUESTIONS_FAILED + e)
    case Ok((c, l)) => Ok(ByCourseAndLanguage(c, l, Paging(filters, difficulty, limit, offset, None, onlyActive, DEFAULT_LIMIT)))
  }

  /** The callback of `lessonIds.split(',').map(...)`: trim, parse, and reject NaN naming the untrimmed piece. */
  function LessonId(piece: string): (r: Result<int, string>)
    ensures r.Ok? <==> ParseInt(Trim(piece)).Num?
    ensures r.Ok? ==> ParseInt(Trim(piece)) == Num(r.value)
    ensures r.Err? ==> r.error == "Invalid lesson ID: " + piece
  {
    match ParseInt(Trim(piece))
    case NaN => Err("Invalid lesson ID: " + piece)
    case Num(v) => Ok(v)
  }

  /** `pieces.map(...)` with the `LessonId` callback: the first piece that is not a number ends it. */
  function LessonIdList(pieces: seq<string>): (r: Result<seq<int>, string>)
    ensures r.Ok? <==> forall k :: 0 <= k < |pieces| ==> LessonId(pieces[k]).Ok?
    ensures r.Ok? ==> |r.value| == |pieces| && forall k :: 0 <= k < |pieces| ==> LessonId(pieces[k]) == Ok(r.value[k])
  {
    MapFrom(pieces, (piece: string, _: nat) => LessonId(piece), 0)
  }

  /** The lesson ids of a `lessonIds` query value, in order. */
  function ParseLessonIds(lessonIds: Option<string>): (r: Result<seq<int>, string>)
    ensures !Given(lessonIds) ==> r == Err(LESSON_IDS_REQUIRED)
    ensures Given(lessonIds) ==> r == LessonIdList(Split(lessonIds.value, ','))
  {
    if !Given(lessonIds) then Err(LESSON_IDS_REQUIRED)
    else LessonIdList(Split(lessonIds.value, ','))
  }

  /** A rejected list names its first piece, in order, that is not a number, as it was written. */
  lemma ParseLessonIdsFirstInvalid(lessonIds: Option<string>) returns (k: nat)
    requires Given(lessonIds) && ParseLessonIds(lessonIds).Err?
    ensures var pieces := Split(lessonIds.value, ',');
      && k < |pieces| && ParseInt(Trim(pieces[k])).NaN?
      && ParseLessonIds(lessonIds).error == "Invalid lesson ID: " + pieces[k]
      && forall j :: 0 <= j < k ==> ParseInt(Trim(pieces[j])).Num?
  {
    var pieces := Split(lessonIds.value, ',');
    assert ParseLessonIds(lessonIds) == LessonIdList(pieces);
    k := MapFromFirstError(pieces, (piece: string, _: nat) => LessonId(piece), 0);
  }

  /** The decimal renderings of `ids`. */
  function Rendered(ids: seq<int>): (r: seq<string>)
    ensures |r| == |ids|
    ensures forall k :: 0 <= k < |ids| ==> r[k] == IntToString(ids[k])
  {
    seq(|ids|, k requires 0 <= k < |ids| => IntToString(ids[k]))
  }

  /** Each rendered id is read back by the `LessonId` callback. */
  lemma RenderedIdsParse(ids: seq<int>)
    ensures LessonIdList(Rendered(ids)) == Ok(ids)
    ensures forall k :: 0 <= k < |ids| ==> ',' !in Rendered(ids)[k]
  {
    var pieces := Rendered(ids);
    forall k | 0 <= k < |pieces| ensures ',' !in pieces[k] && LessonId(pieces[k]) == Ok(ids[k]) {
      IntToStringPlain(ids[k]);
      TrimOfTrimmed(pieces[k]);
      ParseIntToString(ids[k]);
    }
    assert LessonIdList(pieces).value == ids;
  }

  /** A non-empty list of ids written as `1,2,3` parses back to exactly that list. */
  lemma LessonIdsRoundTrip(ids: seq<int>)
    requires |ids| >= 1
    ensures ParseLessonIds(Some(Join(Rendered(ids), ','))) == Ok(ids)
  {
    var pieces := Rendered(ids);
    RenderedIdsParse(ids);
    SplitJoin(pieces, ',');
    assert |Join(pieces, ',')| >= |pieces[0]| >= 1;
  }

  /** `GET by-lessons?lessonIds=...`. */
  function GetQuestionsByLessonIds(lessonIds: Option<string>, filters: Filters, onlyActive: Option<string>): (r: Result<ServiceCall, string>)
    ensures !Given(lessonIds) ==> r == Err(LESSON_QUESTIONS_FAILED + LESSON_IDS_REQUIRED)
    ensures r.Err? <==> ParseLessonIds(lessonIds).Err?
    ensures r.Err? ==> r.error == LESSON_QUESTIONS_FAILED + ParseLessonIds(lessonIds).error
    ensures r.Ok? ==> r.value == ByLessons(ParseLessonIds(lessonIds).value, filters, onlyActive != Some("false"))
  {
    match ParseLessonIds(lessonIds)
    case Err(e) => Err(LESSON_QUESTIONS_FAILED + e)
    case Ok(ids) => Ok(ByLessons(ids, filters, OnlyActive(onlyActive)))
  }

  /** `GET flow/:courseId/:languageId`. */
  function GetQuestionsFlow(courseId: string, languageId: string, filters: Filters): (r: Result<ServiceCall, string>)
    ensures r.Err? <==> ParseInt(courseId).NaN? || ParseInt(languageId).NaN?
    ensures r.Err? ==> r.error == FLOW_FAILED + IDS_INVALID
    ensures r.Ok? ==>
      && r.value.Flow? && ParseInt(courseId) == Num(r.value.courseId)
      && ParseInt(languageId) == Num(r.value.languageId) && r.value.filters == filters
  {
    match ParseIdPair(courseId, languageId)
    case Err(e) => Err(FLOW_FAILED + e)
    case Ok((c, l)) => Ok(Flow(c, l, filters))
  }

  /** `GET lessons/by-course-language/:courseId/:languageId`. */
  function GetLessonsByCourseAndLanguage(courseId: string, languageId: string, onlyActive: Option<string>): (r: Result<ServiceCall, string>)
    ensures r.Err? <==> ParseInt(courseId).NaN? || ParseInt(languageId).NaN?
    ensures r.Err? ==> r.error == LESSONS_FAILED + IDS_INVALID
    ensures r.Ok? ==>
      && r.value.LessonsByCourseAndLanguage? && ParseInt(courseId) == Num(r.value.courseId)
      && ParseInt(languageId) == Num(r.value.languageId) && (r.value.onlyActive <==> onlyActive != Some("false"))
  {
    match ParseIdPair(courseId, languageId)
    case Err(e) => Err(LESSONS_FAILED + e)
    case Ok((c, l)) => Ok(LessonsByCourseAndLanguage(c, l, OnlyActive(onlyActive)))
  }

  /** `GET lessons/by-course/:courseId`. */
  function GetLessonsByCourseId(courseId: string, onlyActive: Option<string>): (r: Result<ServiceCall, string>)
    ensures r.Err? <==> ParseInt(courseId).NaN?
    ensures r.Err? ==> r.error == LESSONS_FAILED + COURSE_ID_INVALID
    ensures r.Ok? ==>
      && r.value.LessonsByCourse? && ParseInt(courseId) == Num(r.value.courseId)
      && (r.value.onlyActive <==> onlyActive != Some("false"))
  {
    match ParseInt(courseId)
    case NaN => Err(LESSONS_FAILED + COURSE_ID_INVALID)
    case Num(id) => Ok(LessonsByCourse(id, OnlyActive(onlyActive)))
  }

  /** `GET all`: nothing to reject; the options carry the search text as well. */
  function GetAllQuestions(filters: Filters, difficulty: Option<string>, limit: Option<string>, offset: Option<string>,
                           search: Option<string>, onlyActive: Option<string>): (r: ServiceCall)
    ensures r.All? && r.options == Paging(filters, difficulty, limit, offset, search, onlyActive, DEFAULT_LIMIT)
    ensures !Given(limit) ==> r.options.limit == Num(20)
  {
    All(Paging(filters, difficulty, limit, offset, search, onlyActive, DEFAULT_LIMIT))
  }

  /** `GET all/simple`: the page size defaults to 50 and there is no difficulty or search. */
  function GetAllQuestionsSimple(filters: Filters, limit: Option<string>, offset: Option<string>, onlyActive: Option<string>): (r: ServiceCall)
    ensures r.AllSimple? && r.options == Paging(filters, None, limit, offset, None, onlyActive, SIMPLE_LIMIT)
    ensures !Given(limit) ==> r.options.limit == Num(50)
  {
    AllSimple(Paging(filters, None, limit, offset, None, onlyActive, SIMPLE_LIMIT))
  }

  /** `GET raw/limit/:limit`: `parseInt(limit) || 50`, so 0 and NaN both give 50. */
  function GetAllQuestionsLimit(limit: string): (r: ServiceCall)
    ensures r.AllLimited?
    ensures ParseInt(limit).Truthy() ==> ParseInt(limit) == Num(r.limit)
    ensures !ParseInt(limit).Truthy() ==> r.limit == RAW_LIMIT
    ensures r.limit != 0
  {
    var n := ParseInt(limit);
    AllLimited(if n.Truthy() then n.v else RAW_LIMIT)
  }
}
