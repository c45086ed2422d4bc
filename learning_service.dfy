/**
 * `LearningService` (src/learning/learning.service.ts): crediting XP for a completed quiz
 * (recording the attempt) or flashcard, and reading a user's XP.
 * Numeric inputs come from a request body and may be missing: None stands for
 * `undefined`/`null`, and a value is falsy when it is missing or 0.
 */
module LearningService {
  import opened Wrappers
  import opened UserModel

  /** XP credited for a completed flashcard. */
  const FLASHCARD_XP: int := 10

  const QUIZ_ARGS_REQUIRED := "userId, quizId, and score are required."
  const FLASHCARD_ARGS_REQUIRED := "userId and flashcardId are required."
  const USER_ID_REQUIRED := "userId is required."
  const USER_NOT_FOUND := "User not found"

  datatype LearningError = BadRequest(message: string) | NotFound(message: string)

  /** A row of `quiz_attempts` as `completeQuiz` creates it. */
  datatype QuizAttempt = QuizAttempt(userId: int, lessonId: int, score: int, xpEarned: int)

  datatype QuizCompletion = QuizCompletion(xp: int, attempt: QuizAttempt)
  datatype UserXp = UserXp(userId: int, xp: int)

  /** JavaScript `!x` for a numeric argument. */
  predicate Falsy(x: Option<int>) {
    x.None? || x.value == 0
  }

  /** The XP recorded in `attempts` for one user. */
  function RecordedXp(attempts: seq<QuizAttempt>, userId: int): int {
    if attempts == [] then 0
    else (if attempts[0].userId == userId then attempts[0].xpEarned else 0) + RecordedXp(attempts[1..], userId)
  }

  /** Appending an attempt adds its XP to its own user's record only. */
  lemma {:induction false} RecordedXpAppend(attempts: seq<QuizAttempt>, a: QuizAttempt, userId: int)
    ensures RecordedXp(attempts + [a], userId) == RecordedXp(attempts, userId) + (if a.userId == userId then a.xpEarned else 0)
    decreases |attempts|
  {
    if attempts == [] {
      assert attempts + [a] == [a];
    } else {
      assert (attempts + [a])[1..] == attempts[1..] + [a];
      RecordedXpAppend(attempts[1..], a, userId);
    }
  }

  class LearningServiceState {
    /** The users repository. */
    const users: map<int, User>
    /** The `quiz_attempts` repository. */
    var quizAttempts: seq<QuizAttempt>

    constructor (users: map<int, User>, quizAttempts: seq<QuizAttempt>)
      requires TableValid(users)
      ensures this.users == users && this.quizAttempts == quizAttempts
      ensures Valid()
    {
      this.users, this.quizAttempts := users, quizAttempts;
    }

    ghost predicate Valid() {
      TableValid(users)
    }

    /** A user's XP beyond what their recorded attempts account for. */
    ghost function UnrecordedXp(userId: int): int
      reads this, users.Values
      requires userId in users
    {
      users[userId].totalXp - RecordedXp(quizAttempts, userId)
    }

    /**
     * `completeQuiz`: a falsy `userId` or `quizId`, or a missing `score`, is a BadRequest before
     * any lookup (a score of 0 is accepted); an unknown user is NotFound. Otherwise the score is
     * added to the user's XP and recorded as an attempt, so every user's XP not accounted for by
     * their attempts stays what it was.
     */
    method CompleteQuiz(userId: Option<int>, quizId: Option<int>, score: Option<int>)
      returns (r: Result<QuizCompletion, LearningError>)
      requires Valid()
      modifies this`quizAttempts, if userId.Some? then UserFrame(users, userId.value) else {}
      ensures Falsy(userId) || Falsy(quizId) || score.None? ==> r == Err(BadRequest(QUIZ_ARGS_REQUIRED))
      ensures !(Falsy(userId) || Falsy(quizId) || score.None?) && userId.value !in users ==> r == Err(NotFound(USER_NOT_FOUND))
      ensures r.Err? ==> quizAttempts == old(quizAttempts) && forall id :: id in users ==> users[id].Row() == old(users[id].Row())
      ensures !(Falsy(userId) || Falsy(quizId) || score.None?) && userId.value in users ==>
        var attempt := QuizAttempt(userId.value, quizId.value, score.value, score.value);
        && users[userId.value].Row() == old(users[userId.value].Row()).(totalXp := old(users[userId.value].totalXp) + score.value)
        && quizAttempts == old(quizAttempts) + [attempt]
        && r == Ok(QuizCompletion(users[userId.value].totalXp, attempt))
      ensures forall id :: id in users && (userId.None? || id != userId.value) ==> users[id].Row() == old(users[id].Row())
      ensures forall id :: id in users ==> UnrecordedXp(id) == old(UnrecordedXp(id))
      ensures r.Ok? ==> GetUserXp(userId) == Ok(UserXp(userId.value, r.value.xp))
    {
      if Falsy(userId) || Falsy(quizId) || score.None? {
        return Err(BadRequest(QUIZ_ARGS_REQUIRED));
      }
      if userId.value !in users {
        return Err(NotFound(USER_NOT_FOUND));
      }
      var user := users[userId.value];
      user.totalXp := user.totalXp + score.value;
      var attempt := QuizAttempt(userId.value, quizId.value, score.value, score.value);
      forall id | id in users {
        RecordedXpAppend(quizAttempts, attempt, id);
      }
      quizAttempts := quizAttempts + [attempt];
      return Ok(QuizCompletion(user.totalXp, attempt));
    }

    /**
     * `completeFlashcard`: a falsy `userId` or `flashcardId` is a BadRequest, an unknown user
     * NotFound; otherwise the user gains exactly 10 XP and the new total is returned.
     */
    method CompleteFlashcard(userId: Option<int>, flashcardId: Option<int>) returns (r: Result<int, LearningError>)
      requires Valid()
      modifies if userId.Some? then UserFrame(users, userId.value) else {}
      ensures Falsy(userId) || Falsy(flashcardId) ==> r == Err(BadRequest(FLASHCARD_ARGS_REQUIRED))
      ensures !(Falsy(userId) || Falsy(flashcardId)) && userId.value !in users ==> r == Err(NotFound(USER_NOT_FOUND))
      ensures r.Err? ==> forall id :: id in users ==> users[id].Row() == old(users[id].Row())
      ensures !(Falsy(userId) || Falsy(flashcardId)) && userId.value in users ==>
        && users[userId.value].Row() == old(users[userId.value].Row()).(totalXp := old(users[userId.value].totalXp) + FLASHCARD_XP)
        && r == Ok(users[userId.value].totalXp)
      ensures forall id :: id in users && (userId.None? || id != userId.value) ==> users[id].Row() == old(users[id].Row())
      ensures r.Ok? ==> GetUserXp(userId) == Ok(UserXp(userId.value, r.value))
    {
      if Falsy(userId) || Falsy(flashcardId) {
        return Err(BadRequest(FLASHCARD_ARGS_REQUIRED));
      }
      if userId.value !in users {
        return Err(NotFound(USER_NOT_FOUND));
      }
      var user := users[userId.value];
      user.totalXp := user.totalXp + FLASHCARD_XP;
      return Ok(user.totalXp);
    }

    /** `getUserXP`: read only; BadRequest for a falsy id, NotFound for an unknown user, else the user's XP. */
    function GetUserXp(userId: Option<int>): (r: Result<UserXp, LearningError>)
      reads users.Values
      ensures Falsy(userId) ==> r == Err(BadRequest(USER_ID_REQUIRED))
      ensures !Falsy(userId) && userId.value !in users ==> r == Err(NotFound(USER_NOT_FOUND))
      ensures r.Ok? <==> !Falsy(userId) && userId.value in users
      ensures r.Ok? ==> r.value == UserXp(userId.value, users[userId.value].totalXp)
    {
      if Falsy(userId) then Err(BadRequest(USER_ID_REQUIRED))
      else if userId.value !in users then Err(NotFound(USER_NOT_FOUND))
      else Ok(UserXp(userId.value, users[userId.value].totalXp))
    }
  }
}
