/** The quiz session controller: seven pieces of state, the transitions that
    load a question, lock in an answer and change the difficulty, and the pure
    rules the view derives from the state (difficulty gating, which panel is
    shown, how each option is marked, the explanation).

    `Session` is the value of the seven fields and the functions on it are the
    specification; `QuizSession` holds the fields and updates them one at a
    time, as the component's setters do, proved against those functions. */
module Quiz {
  import opened JsRuntime
  import opened QuizTypes
  import Api

  /** The message shown whenever a load fails, whatever the cause. */
  const LoadFailedMessage: string := "Failed to load question. Please try again."

  /** The component's state fields. */
  datatype Session = Session(
    difficulty: Difficulty,
    streak: nat,
    question: Option<Question>,
    loading: bool,
    selectedOption: Option<int>,
    isCorrect: Option<bool>,
    error: Option<string>)

  /** The consistency every reachable session keeps: a verdict exists exactly
      when an answer does and is the verdict on that answer; an answer needs a
      question; a question and an error never coexist; while loading nothing
      else is shown; the only error is the fixed message. */
  predicate Inv(s: Session)
  {
    (s.isCorrect.Some? <==> s.selectedOption.Some?)
    && (s.selectedOption.Some? ==>
          s.question.Some?
          && s.isCorrect == Some(s.selectedOption.value == s.question.value.correctOptionIndex))
    && !(s.question.Some? && s.error.Some?)
    && (s.loading ==> s.question.None? && s.selectedOption.None? && s.error.None?)
    && (s.error.Some? ==> s.error.value == LoadFailedMessage)
  }

  /** The panel the content area shows: loading first, then an error, then the
      question, else nothing. An empty error string is falsy and not shown. */
  datatype View = Loader | ErrorPanel(message: string) | QuestionPanel(shown: Question) | Blank

  function ViewOf(s: Session): View
  {
    if s.loading then Loader
    else if s.error.Some? && s.error.value != "" then ErrorPanel(s.error.value)
    else if s.question.Some? then QuestionPanel(s.question.value)
    else Blank
  }

  /** In a consistent session the precedence hides nothing: each panel is shown
      exactly when its state is present. */
  lemma ViewReflectsState(s: Session)
    requires Inv(s)
    ensures ViewOf(s) == Loader <==> s.loading
    ensures ViewOf(s).ErrorPanel? <==> s.error.Some?
    ensures ViewOf(s).QuestionPanel? <==> s.question.Some?
    ensures ViewOf(s) == Blank <==> !s.loading && s.error.None? && s.question.None?
  {
  }

  /** The difficulty selector is disabled while loading and after a wrong answer. */
  predicate DifficultyDisabled(s: Session)
  {
    s.loading || (s.selectedOption.Some? && !(s.isCorrect.Some? && s.isCorrect.value))
  }

  /** Gating in terms of the answer: disabled exactly when loading or when the
      selected option is not the correct one; so enabled before an answer,
      after a correct one and on the error panel. */
  lemma GatingRule(s: Session)
    requires Inv(s)
    ensures DifficultyDisabled(s) <==>
      s.loading
      || (s.selectedOption.Some? && s.selectedOption.value != s.question.value.correctOptionIndex)
    ensures s.error.Some? ==> !DifficultyDisabled(s)
    ensures !s.loading && s.selectedOption.None? ==> !DifficultyDisabled(s)
  {
  }

  /** The state when the component mounts. */
  function Initial(): (s: Session)
    ensures Inv(s) && ViewOf(s) == Blank && !DifficultyDisabled(s)
  {
    Session(Medium, 0, None, false, None, None, None)
  }

  /** `loadQuestion`, up to the request: loading, with the question, answer,
      verdict and error cleared. */
  function LoadStarted(s: Session): (t: Session)
    ensures Inv(t) && ViewOf(t) == Loader && DifficultyDisabled(t)
    ensures t.streak == s.streak && t.difficulty == s.difficulty
  {
    s.(loading := true, error := None, question := None, selectedOption := None, isCorrect := None)
  }

  /** `loadQuestion`, after the request settles: a question is stored, or the
      fixed error message; either way loading ends. */
  function LoadCompleted(s: Session, outcome: Throws<Question>): (t: Session)
    requires Inv(s) && s.loading
    ensures Inv(t) && !t.loading && !DifficultyDisabled(t)
    ensures t.streak == s.streak && t.difficulty == s.difficulty
    ensures t.selectedOption.None?
    ensures outcome.Returned? ==> t.question == Some(outcome.value) && ViewOf(t) == QuestionPanel(outcome.value)
    ensures outcome.Thrown? ==> t.question.None? && ViewOf(t) == ErrorPanel(LoadFailedMessage)
  {
    match outcome
    case Returned(q) => s.(question := Some(q), loading := false)
    case Thrown(_) => s.(error := Some(LoadFailedMessage), loading := false)
  }

  /** The request `loadQuestion` issues from session `s`, for the chapter draw
      `r`: `fetchQuestion` at the session's difficulty. */
  function LoadRequest(s: Session, prod: bool, r: real): (req: Api.Request)
    requires 0.0 <= r < 1.0
    ensures req.body.difficulty == Name(s.difficulty) && req.body.chapterTitle in Api.Chapters
  {
    Api.QuestionRequest(prod, s.difficulty, r)
  }

  /** A whole `loadQuestion` from `s`, with the transport `send`: the session
      ends consistent and not loading, with streak and difficulty kept, showing
      either the question an OK reply to the request at the session's
      difficulty carried, or the error panel. */
  function Loaded(s: Session, prod: bool, r: real, send: Api.Request -> Throws<Api.HttpReply>): (t: Session)
    requires 0.0 <= r < 1.0
    ensures Inv(t) && !t.loading && t.selectedOption.None?
    ensures t.streak == s.streak && t.difficulty == s.difficulty
    ensures ViewOf(t).QuestionPanel? || ViewOf(t) == ErrorPanel(LoadFailedMessage)
    ensures ViewOf(t).QuestionPanel? ==>
      var sent := send(LoadRequest(s, prod, r));
      sent.Returned? && Api.Ok(sent.value) && sent.value.json == Returned(ViewOf(t).shown)
  {
    LoadCompleted(LoadStarted(s), Api.FetchQuestion(prod, s.difficulty, r, send))
  }

  /** "Next Question" and "Retry" reload at the current difficulty. */
  lemma ReloadAsksCurrentDifficulty(s: Session, prod: bool, r: real)
    requires 0.0 <= r < 1.0
    ensures LoadRequest(LoadStarted(s), prod, r).body.difficulty == Name(s.difficulty)
    ensures LoadStarted(s).streak == s.streak
  {
  }

  /** The streak after one more answer: one longer if correct, else zero. */
  function NextStreak(streak: nat, correct: bool): (n: nat)
    ensures correct <==> n > 0
    ensures correct ==> n == streak + 1
  {
    if correct then streak + 1 else 0
  }

  /** `handleOptionClick(i)`: the first answer is locked in and judged against
      `correctOptionIndex`, and the streak follows it; once an answer exists,
      nothing changes. */
  function OptionSelected(s: Session, i: int): (t: Session)
    requires s.question.Some?
    ensures Inv(s) ==> Inv(t)
    ensures s.selectedOption.Some? ==> t == s
    ensures s.selectedOption.None? ==>
      var correct := i == s.question.value.correctOptionIndex;
      t.selectedOption == Some(i) && t.isCorrect == Some(correct)
      && t.streak == NextStreak(s.streak, correct)
      && t.question == s.question && t.difficulty == s.difficulty
      && t.loading == s.loading && t.error == s.error
  {
    if s.selectedOption.Some? then s
    else
      var correct := i == s.question.value.correctOptionIndex;
      s.(selectedOption := Some(i), isCorrect := Some(correct),
         streak := if correct then s.streak + 1 else 0)
  }

  /** Once an answer is selected, further clicks change nothing, whichever option. */
  lemma SelectionLocksIn(s: Session, i: int, j: int)
    requires s.question.Some?
    ensures OptionsDisabled(OptionSelected(s, i))
    ensures OptionsDisabled(s) ==> OptionSelected(s, j) == s
    ensures OptionSelected(OptionSelected(s, i), j) == OptionSelected(s, i)
  {
  }

  /** A click on a difficulty button: ignored while the selector is disabled or
      when it names the current difficulty (the state setter then leaves the
      state alone and the effect does not fire); otherwise the difficulty is set
      and a new load starts at it. */
  function DifficultyChosen(s: Session, d: Difficulty): (t: Session)
    ensures t.streak == s.streak
    ensures t != s <==> !DifficultyDisabled(s) && d != s.difficulty
    ensures t != s ==> t.difficulty == d && t == LoadStarted(s.(difficulty := d))
  {
    if DifficultyDisabled(s) || d == s.difficulty then s
    else LoadStarted(s.(difficulty := d))
  }

  /** After a wrong answer a difficulty change does nothing; after a right one
      it changes the difficulty and starts a load, keeping the streak. */
  lemma DifficultyAfterAnswer(s: Session, d: Difficulty)
    requires Inv(s) && s.selectedOption.Some?
    ensures s.selectedOption.value != s.question.value.correctOptionIndex ==> DifficultyChosen(s, d) == s
    ensures s.selectedOption.value == s.question.value.correctOptionIndex && d != s.difficulty ==>
      var t := DifficultyChosen(s, d);
      t.difficulty == d && t.loading && t.streak == s.streak
  {
  }

  /** A difficulty change that goes through starts a load whose request asks
      for the new difficulty. */
  lemma DifficultyChangeAsksNewDifficulty(s: Session, d: Difficulty, prod: bool, r: real)
    requires 0.0 <= r < 1.0
    requires !DifficultyDisabled(s) && d != s.difficulty
    ensures DifficultyChosen(s, d).loading
    ensures LoadRequest(DifficultyChosen(s, d), prod, r).body.difficulty == Name(d)
  {
  }

  /** How an option button is drawn once the question is shown. */
  datatype Mark = Plain | MarkedCorrect | MarkedWrong | Dimmed

  /** The style chosen for option `index`: plain before an answer; afterwards
      the correct option first, then the selected one, the rest dimmed. */
  function OptionMark(s: Session, index: int): Mark
    requires s.question.Some?
  {
    if s.selectedOption.None? then Plain
    else if index == s.question.value.correctOptionIndex then MarkedCorrect
    else if s.selectedOption.value == index then MarkedWrong
    else Dimmed
  }

  /** The check icon beside an option. */
  predicate ShowsCheck(s: Session, index: int)
    requires s.question.Some?
  {
    s.selectedOption.Some? && index == s.question.value.correctOptionIndex
  }

  /** The cross icon beside an option. */
  predicate ShowsCross(s: Session, index: int)
    requires s.question.Some?
  {
    s.selectedOption.Some? && s.selectedOption == Some(index)
    && index != s.question.value.correctOptionIndex
  }

  /** The option buttons are disabled once an answer exists. */
  predicate OptionsDisabled(s: Session)
  {
    s.selectedOption.Some?
  }

  /** Before an answer nothing is marked and no icon shows; after one, exactly
      the correct option is marked correct, the selected option is marked wrong
      exactly when it is not the correct one, every other option is dimmed, and
      the icons agree with the marks. */
  lemma MarksOfOption(s: Session, j: int)
    requires s.question.Some?
    ensures s.selectedOption.None? ==> OptionMark(s, j) == Plain && !ShowsCheck(s, j) && !ShowsCross(s, j)
    ensures s.selectedOption.Some? ==>
      var ci, sel := s.question.value.correctOptionIndex, s.selectedOption.value;
      (OptionMark(s, j) == MarkedCorrect <==> j == ci)
      && (OptionMark(s, j) == MarkedWrong <==> j == sel && sel != ci)
      && (OptionMark(s, j) == Dimmed <==> j != ci && j != sel)
    ensures ShowsCheck(s, j) <==> OptionMark(s, j) == MarkedCorrect
    ensures ShowsCross(s, j) <==> OptionMark(s, j) == MarkedWrong
  {
  }

  /** The number of option indices below `n` drawn with mark `m`. */
  function CountMarked(s: Session, m: Mark, n: nat): nat
    requires s.question.Some?
  {
    if n == 0 then 0
    else CountMarked(s, m, n - 1) + (if OptionMark(s, n - 1) == m then 1 else 0)
  }

  /** After an answer, among the first `n` options exactly one is marked
      correct when `correctOptionIndex` is one of them and none otherwise, and
      at most one is marked wrong: the selection, when it is a wrong one. */
  lemma {:induction false} MarkCounts(s: Session, n: nat)
    requires s.question.Some? && s.selectedOption.Some?
    ensures
      var ci, sel := s.question.value.correctOptionIndex, s.selectedOption.value;
      CountMarked(s, MarkedCorrect, n) == (if 0 <= ci < n then 1 else 0)
      && CountMarked(s, MarkedWrong, n) == (if 0 <= sel < n && sel != ci then 1 else 0)
  {
    if n > 0 {
      MarkCounts(s, n - 1);
    }
  }

  /** The example of a four-option question whose correct index is 2: after a
      wrong pick and after the right one, option 2 alone is marked correct. */
  lemma MarkCountsExample(q: Question, pick: int)
    requires |q.options| == 4 && q.correctOptionIndex == 2
    ensures
      var t := OptionSelected(LoadCompleted(LoadStarted(Initial()), Returned(q)), pick);
      CountMarked(t, MarkedCorrect, 4) == 1 && OptionMark(t, 2) == MarkedCorrect
  {
    var t := OptionSelected(LoadCompleted(LoadStarted(Initial()), Returned(q)), pick);
    MarkCounts(t, 4);
  }

  /** The tint of the explanation box. */
  datatype Tone = Green | Red

  /** The explanation and the "next" button are shown once an answer exists. */
  predicate ExplanationShown(s: Session)
  {
    ViewOf(s).QuestionPanel? && s.selectedOption.Some?
  }

  /** Green after a correct answer, red otherwise. */
  function ExplanationTone(s: Session): Tone
  {
    if s.isCorrect.Some? && s.isCorrect.value then Green else Red
  }

  /** In a consistent session the explanation shows exactly when an answer is
      selected, green exactly when that answer is the correct option. */
  lemma ExplanationRule(s: Session)
    requires Inv(s)
    ensures ExplanationShown(s) <==> s.selectedOption.Some?
    ensures ExplanationShown(s) ==>
      (ExplanationTone(s) == Green <==> s.selectedOption.value == s.question.value.correctOptionIndex)
  {
  }

  /** The streak after a sequence of answers judged right (`true`) or wrong. */
  function StreakAfter(start: nat, outcomes: seq<bool>): nat
  {
    if outcomes == [] then start
    else NextStreak(StreakAfter(start, outcomes[..|outcomes| - 1]), outcomes[|outcomes| - 1])
  }

  /** The streaks shown after each answer in turn. */
  function Trajectory(start: nat, outcomes: seq<bool>): (t: seq<nat>)
    ensures |t| == |outcomes|
    ensures forall k :: 0 <= k < |t| ==> t[k] == StreakAfter(start, outcomes[..k + 1])
  {
    if outcomes == [] then []
    else
      var init := outcomes[..|outcomes| - 1];
      assert forall j :: 0 <= j <= |init| ==> init[..j] == outcomes[..j];
      assert outcomes[..|outcomes|] == outcomes;
      Trajectory(start, init) + [StreakAfter(start, outcomes)]
  }

  /** The length of the run of right answers at the end of `outcomes`. */
  function TrailingRun(outcomes: seq<bool>): (n: nat)
    ensures n <= |outcomes|
    ensures forall k :: |outcomes| - n <= k < |outcomes| ==> outcomes[k]
    ensures n < |outcomes| ==> !outcomes[|outcomes| - 1 - n]
  {
    if outcomes == [] || !outcomes[|outcomes| - 1] then 0
    else TrailingRun(outcomes[..|outcomes| - 1]) + 1
  }

  /** The streak counts consecutive right answers: the final run of them,
      added to the starting streak only when no answer was wrong. */
  lemma {:induction false} StreakIsTrailingRun(start: nat, outcomes: seq<bool>)
    ensures StreakAfter(start, outcomes) ==
      if false in outcomes then TrailingRun(outcomes) else start + |outcomes|
  {
    if outcomes != [] {
      var init := outcomes[..|outcomes| - 1];
      StreakIsTrailingRun(start, init);
      assert outcomes == init + [outcomes[|outcomes| - 1]];
      assert false in outcomes <==> false in init || !outcomes[|outcomes| - 1];
    }
  }

  /** Right, right, wrong, right from a streak of zero shows 1, 2, 0, 1. */
  lemma StreakExample()
    ensures Trajectory(0, [true, true, false, true]) == [1, 2, 0, 1]
  {
    var o := [true, true, false, true];
    assert o[..3] == [true, true, false] && o[..3][..2] == [true, true];
    assert o[..3][..2][..1] == [true] && o[..3][..2][..1][..0] == [];
    assert StreakAfter(0, [true]) == 1;
    assert StreakAfter(0, [true, true]) == 2;
    assert StreakAfter(0, [true, true, false]) == 0;
    assert StreakAfter(0, o) == 1;
  }

  /** One question cycle: a load that returns `question`, then a click on `pick`. */
  datatype Round = Round(question: Question, pick: int)

  function PlayRound(s: Session, r: Round): (t: Session)
  {
    OptionSelected(LoadCompleted(LoadStarted(s), Returned(r.question)), r.pick)
  }

  /** The session after playing `rounds` in order. */
  function Play(s: Session, rounds: seq<Round>): Session
  {
    if rounds == [] then s
    else PlayRound(Play(s, rounds[..|rounds| - 1]), rounds[|rounds| - 1])
  }

  /** Whether each round's pick was the correct option. */
  function Outcomes(rounds: seq<Round>): (o: seq<bool>)
    ensures |o| == |rounds|
    ensures forall k :: 0 <= k < |rounds| ==> o[k] == (rounds[k].pick == rounds[k].question.correctOptionIndex)
  {
    seq(|rounds|, k requires 0 <= k < |rounds| => rounds[k].pick == rounds[k].question.correctOptionIndex)
  }

  /** Over any sequence of question cycles the difficulty is kept, the session
      stays consistent and its streak is the streak of the answers' outcomes. */
  lemma {:induction false} PlayStreak(s: Session, rounds: seq<Round>)
    ensures Play(s, rounds).difficulty == s.difficulty
    ensures rounds != [] ==> Inv(Play(s, rounds)) && Play(s, rounds).selectedOption.Some?
    ensures Play(s, rounds).streak == StreakAfter(s.streak, Outcomes(rounds))
  {
    if rounds != [] {
      var init := rounds[..|rounds| - 1];
      PlayStreak(s, init);
      assert Outcomes(rounds)[..|rounds| - 1] == Outcomes(init);
    }
  }

  /** The controller's state, held in fields and updated one setter at a time. */
  class QuizSession {
    var difficulty: Difficulty
    var streak: nat
    var question: Option<Question>
    var loading: bool
    var selectedOption: Option<int>
    var isCorrect: Option<bool>
    var error: Option<string>

    /** The current values of the fields. */
    function State(): Session
      reads this
    {
      Session(difficulty, streak, question, loading, selectedOption, isCorrect, error)
    }

    ghost predicate Valid()
      reads this
    {
      Inv(State())
    }

    /** The initial values of the fields. */
    constructor ()
      ensures Valid() && State() == Initial()
    {
      difficulty := Medium;
      streak := 0;
      question := None;
      loading := false;
      selectedOption := None;
      isCorrect := None;
      error := None;
    }

    /** The first half of `loadQuestion`; also what mounting, "Retry" and
        "Next Question" do. It returns the request it issues, for the chapter
        draw `r`, at the current difficulty. */
    method StartLoad(prod: bool, r: real) returns (req: Api.Request)
      requires Valid() && 0.0 <= r < 1.0
      modifies this
      ensures Valid() && State() == LoadStarted(old(State()))
      ensures req == LoadRequest(old(State()), prod, r) && req.body.difficulty == Name(difficulty)
    {
      req := Api.QuestionRequest(prod, difficulty, r);
      loading := true;
      error := None;
      question := None;
      selectedOption := None;
      isCorrect := None;
    }

    /** The second half of `loadQuestion`, once the request has settled. */
    method CompleteLoad(outcome: Throws<Question>)
      requires Valid() && loading
      modifies this
      ensures Valid() && State() == LoadCompleted(old(State()), outcome)
    {
      match outcome {
        case Returned(q) =>
          question := Some(q);
        case Thrown(_) =>
          error := Some(LoadFailedMessage);
      }
      loading := false;
    }

    /** The whole of `loadQuestion`, with the transport `send`: start, send the
        request, then complete with what `fetchQuestion` makes of the reply. */
    method LoadQuestion(prod: bool, r: real, send: Api.Request -> Throws<Api.HttpReply>)
      requires Valid() && 0.0 <= r < 1.0
      modifies this
      ensures Valid() && State() == Loaded(old(State()), prod, r, send)
    {
      var req := StartLoad(prod, r);
      var outcome: Throws<Question>;
      match send(req) {
        case Thrown(e) =>
          outcome := Thrown(e);
        case Returned(reply) =>
          outcome := Api.ReadReply(reply);
      }
      CompleteLoad(outcome);
    }

    /** `handleOptionClick(i)`, reachable only from an option of a shown question. */
    method SelectOption(i: int)
      requires Valid() && question.Some?
      modifies this
      ensures Valid() && State() == OptionSelected(old(State()), i)
    {
      if selectedOption.Some? {
        return;
      }
      selectedOption := Some(i);
      var correct := i == question.value.correctOptionIndex;
      isCorrect := Some(correct);
      if correct {
        streak := streak + 1;
      } else {
        streak := 0;
      }
    }

    /** A click on the difficulty button for `d`; `request` is the request of
        the load it starts, if it starts one, for the chapter draw `r`. */
    method ChangeDifficulty(d: Difficulty, prod: bool, r: real) returns (request: Option<Api.Request>)
      requires Valid() && 0.0 <= r < 1.0
      modifies this
      ensures Valid() && State() == DifficultyChosen(old(State()), d)
      ensures request.Some? <==> !DifficultyDisabled(old(State())) && d != old(difficulty)
      ensures request.Some? ==> request.value == LoadRequest(State(), prod, r) && request.value.body.difficulty == Name(d)
    {
      if DifficultyDisabled(State()) || d == difficulty {
        return None;
      }
      difficulty := d;
      var req := StartLoad(prod, r);
      request := Some(req);
    }
  }
}
