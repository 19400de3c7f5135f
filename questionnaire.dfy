/**
 * The questionnaire page (`Questionnaire.jsx`): one question at a time, each answered by a
 * chosen option or, where allowed, by the `CUSTOM` option with a text of its own; then an
 * optional free text of additional requirements; then the answer list sent to the backend.
 * The page state is a class whose handlers replace its maps; rendering, the request and
 * the polling that follows it are left out.
 */
module Questionnaire {
  import opened Wrappers
  import opened Text

  /** The option value that stands for a custom answer. */
  const CustomOption: string := "CUSTOM"

  /** What the logic reads of a question: its id and its `allow_custom` flag. */
  datatype Question = Question(id: string, allowCustom: bool)

  /** One entry of the submitted `answers` list. */
  datatype Answer =
    | Selected(questionId: string, selectedOption: string)
    | Custom(questionId: string, customInput: string)

  /** The request body: the answer list and `additional_requirements` (`None` is `null`). */
  datatype Submission = Submission(answers: seq<Answer>, additionalRequirements: Option<string>)

  /** `m[k]` is truthy: the key is present with a non-empty text. */
  predicate Filled(m: map<string, string>, k: string)
  {
    k in m && m[k] != ""
  }

  /** No two questions share an id. */
  predicate UniqueIds(qs: seq<Question>)
  {
    forall i, j :: 0 <= i < j < |qs| ==> qs[i].id != qs[j].id
  }

  /**
   * What counts as an answer to `q`: a chosen option, and, when the question allows a
   * custom answer and `CUSTOM` is chosen, a custom text that is not blank.
   */
  predicate Answered(q: Question, answers: map<string, string>, custom: map<string, string>)
  {
    Filled(answers, q.id) &&
    (q.allowCustom && answers[q.id] == CustomOption ==> q.id in custom && JsTrim(custom[q.id]) != [])
  }

  // Answer assembly.

  /**
   * The entry a question contributes to the list: its trimmed custom text when `CUSTOM` is
   * chosen with a non-empty one, otherwise its chosen option when there is one.
   */
  function Entry(q: Question, answers: map<string, string>, custom: map<string, string>): (r: Option<Answer>)
    ensures r.Some? <==> Filled(answers, q.id)
    ensures r.Some? ==> r.value.questionId == q.id
    ensures r.Some? && r.value.Custom? ==> answers[q.id] == CustomOption && Filled(custom, q.id)
  {
    if q.id in answers && answers[q.id] == CustomOption && Filled(custom, q.id) then
      Some(Custom(q.id, JsTrim(custom[q.id])))
    else if Filled(answers, q.id) then
      Some(Selected(q.id, answers[q.id]))
    else
      None
  }

  /** `CUSTOM` without a custom text is sent as the chosen option `"CUSTOM"`. */
  lemma CustomWithoutTextIsSelected(q: Question, answers: map<string, string>, custom: map<string, string>)
    requires q.id in answers && answers[q.id] == CustomOption && !Filled(custom, q.id)
    ensures Entry(q, answers, custom) == Some(Selected(q.id, CustomOption))
  {
  }

  /** A custom text of spaces only is sent, trimmed to nothing. */
  lemma BlankCustomTextIsSentEmpty(q: Question, answers: map<string, string>, custom: map<string, string>)
    requires q.id in answers && answers[q.id] == CustomOption && Filled(custom, q.id)
    requires forall k :: 0 <= k < |custom[q.id]| ==> custom[q.id][k] in JsSpace
    ensures Entry(q, answers, custom) == Some(Custom(q.id, ""))
  {
  }

  /** The answer list: the questions' entries, in question order. */
  function AnswerList(qs: seq<Question>, answers: map<string, string>, custom: map<string, string>): (r: seq<Answer>)
    ensures |r| <= |qs|
    decreases |qs|
  {
    if qs == [] then []
    else
      AnswerList(qs[..|qs| - 1], answers, custom) +
      match Entry(qs[|qs| - 1], answers, custom)
      case None => []
      case Some(a) => [a]
  }

  /** One more question adds at most its own entry at the end. */
  lemma AnswerListStep(qs: seq<Question>, i: nat, answers: map<string, string>, custom: map<string, string>)
    requires i < |qs|
    ensures AnswerList(qs[..i + 1], answers, custom) ==
            AnswerList(qs[..i], answers, custom) + (if Entry(qs[i], answers, custom).Some? then [Entry(qs[i], answers, custom).value] else [])
  {
    assert qs[..i + 1][..i] == qs[..i];
  }

  /** The entries the questions contribute. */
  function EntrySet(qs: seq<Question>, answers: map<string, string>, custom: map<string, string>): set<Answer>
  {
    set i | 0 <= i < |qs| && Entry(qs[i], answers, custom).Some? :: Entry(qs[i], answers, custom).value
  }

  /** The list holds exactly the questions' entries. */
  lemma {:induction false} AnswerListEntries(qs: seq<Question>, answers: map<string, string>, custom: map<string, string>)
    ensures forall a :: a in AnswerList(qs, answers, custom) <==> a in EntrySet(qs, answers, custom)
    decreases |qs|
  {
    if qs != [] {
      var init := qs[..|qs| - 1];
      AnswerListEntries(init, answers, custom);
      forall a | a in EntrySet(qs, answers, custom)
        ensures a in AnswerList(qs, answers, custom)
      {
        var i :| 0 <= i < |qs| && Entry(qs[i], answers, custom) == Some(a);
        if i < |qs| - 1 {
          assert init[i] == qs[i];
          assert a in EntrySet(init, answers, custom);
        }
      }
      forall a | a in AnswerList(qs, answers, custom)
        ensures a in EntrySet(qs, answers, custom)
      {
        if a in AnswerList(init, answers, custom) {
          var i :| 0 <= i < |init| && Entry(init[i], answers, custom) == Some(a);
          assert qs[i] == init[i];
        } else {
          assert Entry(qs[|qs| - 1], answers, custom) == Some(a);
        }
      }
    }
  }

  /** The question ids of an answer list. */
  function AnswerIds(r: seq<Answer>): (ids: seq<string>)
    ensures |ids| == |r| && forall k :: 0 <= k < |r| ==> ids[k] == r[k].questionId
  {
    seq(|r|, k requires 0 <= k < |r| => r[k].questionId)
  }

  /** The ids of the questions. */
  function QuestionIds(qs: seq<Question>): (ids: seq<string>)
    ensures |ids| == |qs| && forall i :: 0 <= i < |qs| ==> ids[i] == qs[i].id
  {
    seq(|qs|, i requires 0 <= i < |qs| => qs[i].id)
  }

  /** `a` is `b` with some elements left out, the others kept in order. */
  predicate Subsequence(a: seq<string>, b: seq<string>)
    decreases |b|
  {
    if a == [] then true
    else if b == [] then false
    else if a[|a| - 1] == b[|b| - 1] then Subsequence(a[..|a| - 1], b[..|b| - 1])
    else Subsequence(a, b[..|b| - 1])
  }

  /**
   * Each question contributes at most one entry, in question order: the list's ids are the
   * question ids with the unanswered ones left out.
   */
  lemma {:induction false} AnswerListInOrder(qs: seq<Question>, answers: map<string, string>, custom: map<string, string>)
    ensures Subsequence(AnswerIds(AnswerList(qs, answers, custom)), QuestionIds(qs))
    decreases |qs|
  {
    if qs != [] {
      var init := qs[..|qs| - 1];
      AnswerListInOrder(init, answers, custom);
      var a := AnswerIds(AnswerList(qs, answers, custom));
      var b := QuestionIds(qs);
      assert b[..|b| - 1] == QuestionIds(init);
      match Entry(qs[|qs| - 1], answers, custom)
      case None =>
        assert a == AnswerIds(AnswerList(init, answers, custom));
        SubsequenceOfLonger(a, QuestionIds(init), qs[|qs| - 1].id);
        assert QuestionIds(init) + [qs[|qs| - 1].id] == b;
      case Some(e) =>
        assert a[..|a| - 1] == AnswerIds(AnswerList(init, answers, custom));
    }
  }

  /** A subsequence stays one when the longer sequence grows. */
  lemma {:induction false} SubsequenceOfLonger(a: seq<string>, b: seq<string>, x: string)
    requires Subsequence(a, b)
    ensures Subsequence(a, b + [x])
    decreases |b|, 1
  {
    var c := b + [x];
    assert c[..|c| - 1] == b;
    if a != [] && a[|a| - 1] == x {
      SubsequenceDropLast(a, b);
    }
  }

  /** Dropping the last element of a subsequence keeps it one. */
  lemma {:induction false} SubsequenceDropLast(a: seq<string>, b: seq<string>)
    requires a != [] && Subsequence(a, b)
    ensures Subsequence(a[..|a| - 1], b)
    decreases |b|, 0
  {
    var a' := a[..|a| - 1];
    if a[|a| - 1] == b[|b| - 1] {
      if a' != [] {
        SubsequenceOfLonger(a', b[..|b| - 1], b[|b| - 1]);
        assert b[..|b| - 1] + [b[|b| - 1]] == b;
      }
    } else {
      SubsequenceDropLast(a, b[..|b| - 1]);
      if a' != [] {
        SubsequenceOfLonger(a', b[..|b| - 1], b[|b| - 1]);
        assert b[..|b| - 1] + [b[|b| - 1]] == b;
      }
    }
  }

  /**
   * When every question is answered, each gives exactly one entry, and a custom answer to
   * a question that allows one is sent with a text that is not blank.
   */
  lemma {:induction false} AllAnsweredListIsFull(qs: seq<Question>, answers: map<string, string>, custom: map<string, string>)
    requires forall i :: 0 <= i < |qs| ==> Answered(qs[i], answers, custom)
    ensures var r := AnswerList(qs, answers, custom);
      |r| == |qs| && forall k :: 0 <= k < |r| ==> Some(r[k]) == Entry(qs[k], answers, custom)
    decreases |qs|
  {
    if qs != [] {
      var init := qs[..|qs| - 1];
      assert forall i :: 0 <= i < |init| ==> init[i] == qs[i];
      AllAnsweredListIsFull(init, answers, custom);
      var last := qs[|qs| - 1];
      assert Answered(last, answers, custom);
      var e := Entry(last, answers, custom).value;
      var front := AnswerList(init, answers, custom);
      assert AnswerList(qs, answers, custom) == front + [e];
    }
  }

  /** An answered question that allows a custom answer never sends a blank custom text. */
  lemma AnsweredEntry(q: Question, answers: map<string, string>, custom: map<string, string>)
    requires Answered(q, answers, custom)
    ensures Entry(q, answers, custom).Some?
    ensures q.allowCustom && Entry(q, answers, custom).value.Custom? ==> Entry(q, answers, custom).value.customInput != []
  {
    var e := Entry(q, answers, custom).value;
    if q.allowCustom && e.Custom? {
      assert e.customInput == JsTrim(custom[q.id]);
    }
  }

  /** `additional_requirements`: the trimmed text, or `null` when it is blank. */
  function AdditionalRequirements(text: string): (r: Option<string>)
    ensures r.None? <==> forall k :: 0 <= k < |text| ==> text[k] in JsSpace
    ensures r.Some? ==> r.value != [] && r.value[0] !in JsSpace && r.value[|r.value| - 1] !in JsSpace
  {
    var t := JsTrim(text);
    assert t == Strip(text, JsSpace);
    if t == "" then None
    else
      var last := |t| - 1;
      assert t[0] !in JsSpace && t[last] !in JsSpace;
      Some(t)
  }

  /** The request body built from the page state. */
  function Submit(qs: seq<Question>, answers: map<string, string>, custom: map<string, string>, additional: string): Submission
  {
    Submission(AnswerList(qs, answers, custom), AdditionalRequirements(additional))
  }

  // Answers given before a later one: the effect of `handleAnswer` on the other questions.

  /** Answering one question leaves every other question's entry as it was. */
  lemma AnswerKeepsOthers(q: Question, answers: map<string, string>, custom: map<string, string>, id: string, value: string)
    requires q.id != id
    ensures var custom' := if value != CustomOption then custom - {id} else custom;
      Entry(q, answers[id := value], custom') == Entry(q, answers, custom) &&
      (Answered(q, answers[id := value], custom') <==> Answered(q, answers, custom))
  {
  }

  /** Choosing an ordinary option makes that option the question's entry. */
  lemma OptionChosen(q: Question, answers: map<string, string>, custom: map<string, string>, value: string)
    requires value != CustomOption && value != ""
    ensures Entry(q, answers[q.id := value], custom - {q.id}) == Some(Selected(q.id, value))
    ensures Answered(q, answers[q.id := value], custom - {q.id})
  {
  }

  /** The page state and its handlers. */
  class Page {
    const questions: seq<Question>
    var current: int
    var answers: map<string, string>
    var customAnswers: map<string, string>
    var showingAdditional: bool
    var additional: string

    /** The question index points at a question, when there is one. */
    predicate Valid()
      reads this
    {
      0 <= current && (questions != [] ==> current < |questions|)
    }

    /**
     * The questions already passed are answered: those before the current one, and all of
     * them once the additional-requirements view is shown.
     */
    predicate PassedAnswered()
      reads this
    {
      forall i :: 0 <= i < |questions| && (showingAdditional || i < current) ==>
        Answered(questions[i], answers, customAnswers)
    }

    /** The initial state: the first question, nothing answered. */
    constructor (questions: seq<Question>)
      ensures this.questions == questions && current == 0 && !showingAdditional
      ensures answers == map[] && customAnswers == map[] && additional == ""
      ensures Valid() && PassedAnswered()
    {
      this.questions := questions;
      current := 0;
      answers := map[];
      customAnswers := map[];
      showingAdditional := false;
      additional := "";
    }

    /**
     * `isCurrentAnswered`, which enables the next button. `None` is the error of reading
     * a question that is not there.
     */
    function IsCurrentAnswered(): (r: Option<bool>)
      reads this
      ensures r.None? <==> !(0 <= current < |questions|)
      ensures r.Some? ==> (r.value <==> Answered(questions[current], answers, customAnswers))
    {
      if !(0 <= current < |questions|) then None
      else
        var q := questions[current];
        if q.allowCustom && q.id in answers && answers[q.id] == CustomOption then
          Some(q.id in customAnswers && customAnswers[q.id] != "" && JsTrim(customAnswers[q.id]) != "")
        else
          Some(q.id in answers && answers[q.id] != "")
    }

    /** `handleAnswer`: records the choice; any choice but `CUSTOM` drops that question's custom text. */
    method HandleAnswer(questionId: string, value: string)
      modifies this
      ensures answers == old(answers)[questionId := value]
      ensures customAnswers == if value != CustomOption then old(customAnswers) - {questionId} else old(customAnswers)
      ensures current == old(current) && showingAdditional == old(showingAdditional) && additional == old(additional)
      ensures old(Valid()) ==> Valid()
      ensures (old(PassedAnswered()) && UniqueIds(questions) && !showingAdditional && 0 <= current < |questions| &&
               questionId == questions[current].id) ==> PassedAnswered()
    {
      answers := answers[questionId := value];
      if value != CustomOption {
        customAnswers := customAnswers - {questionId};
      }
      forall i | 0 <= i < |questions| && i < current && old(PassedAnswered()) && UniqueIds(questions) &&
                 0 <= current < |questions| && questionId == questions[current].id
        ensures Answered(questions[i], answers, customAnswers)
      {
        AnswerKeepsOthers(questions[i], old(answers), old(customAnswers), questionId, value);
      }
    }

    /** `handleCustomAnswer`: records the custom text of a question. */
    method HandleCustomAnswer(questionId: string, value: string)
      modifies this
      ensures customAnswers == old(customAnswers)[questionId := value]
      ensures answers == old(answers) && current == old(current)
      ensures showingAdditional == old(showingAdditional) && additional == old(additional)
      ensures old(Valid()) ==> Valid()
      ensures (old(PassedAnswered()) && UniqueIds(questions) && !showingAdditional && 0 <= current < |questions| &&
               questionId == questions[current].id) ==> PassedAnswered()
    {
      customAnswers := customAnswers[questionId := value];
      forall i | 0 <= i < |questions| && i < current && old(PassedAnswered()) && UniqueIds(questions) &&
                 0 <= current < |questions| && questionId == questions[current].id
        ensures Answered(questions[i], answers, customAnswers)
      {
        assert questions[i].id != questionId;
      }
    }

    /** `handleNext`: the next question, or after the last one the additional-requirements view. */
    method HandleNext()
      modifies this
      ensures old(current) < |questions| - 1 ==> current == old(current) + 1 && showingAdditional == old(showingAdditional)
      ensures old(current) >= |questions| - 1 ==> current == old(current) && showingAdditional
      ensures answers == old(answers) && customAnswers == old(customAnswers) && additional == old(additional)
      ensures old(Valid()) ==> Valid()
      ensures old(PassedAnswered()) && old(IsCurrentAnswered()) == Some(true) && old(Valid()) ==> PassedAnswered()
    {
      if current < |questions| - 1 {
        current := current + 1;
      } else {
        showingAdditional := true;
      }
    }

    /** `handlePrevious`: leaves the additional-requirements view, or goes back one question. */
    method HandlePrevious()
      modifies this
      ensures old(showingAdditional) ==> !showingAdditional && current == old(current)
      ensures !old(showingAdditional) ==> !showingAdditional && current == if old(current) > 0 then old(current) - 1 else old(current)
      ensures answers == old(answers) && customAnswers == old(customAnswers) && additional == old(additional)
      ensures old(Valid()) ==> Valid()
      ensures old(PassedAnswered()) ==> PassedAnswered()
    {
      if showingAdditional {
        showingAdditional := false;
      } else if current > 0 {
        current := current - 1;
      }
    }

    /** The additional-requirements text box. */
    method EditAdditional(text: string)
      modifies this
      ensures additional == text
      ensures answers == old(answers) && customAnswers == old(customAnswers)
      ensures current == old(current) && showingAdditional == old(showingAdditional)
    {
      additional := text;
    }

    /** The answer assembly of `submitAnswers`: the questions in order, then the additional text. */
    method SubmitAnswers() returns (s: Submission)
      ensures s == Submit(questions, answers, customAnswers, additional)
    {
      var list: seq<Answer> := [];
      for i := 0 to |questions|
        invariant list == AnswerList(questions[..i], answers, customAnswers)
      {
        var q := questions[i];
        AnswerListStep(questions, i, answers, customAnswers);
        if q.id in answers && answers[q.id] == CustomOption && q.id in customAnswers && customAnswers[q.id] != "" {
          list := list + [Custom(q.id, JsTrim(customAnswers[q.id]))];
        } else if q.id in answers && answers[q.id] != "" {
          list := list + [Selected(q.id, answers[q.id])];
        }
      }
      assert questions[..|questions|] == questions;
      var extra := JsTrim(additional);
      s := Submission(list, if extra == "" then None else Some(extra));
    }

    /**
     * `handleSkipAdditionalRequirements` as written: the text is cleared, but the submission
     * is built from the state of the render the handler belongs to, which still holds it.
     */
    method SkipAdditionalAsWritten() returns (s: Submission)
      modifies this
      ensures additional == ""
      ensures s == Submit(questions, answers, customAnswers, old(additional))
      ensures answers == old(answers) && customAnswers == old(customAnswers)
      ensures current == old(current) && showingAdditional == old(showingAdditional)
    {
      var typed := additional;
      s := SubmitAnswers();
      assert s == Submit(questions, answers, customAnswers, typed);
      additional := "";
    }

    /** Skipping as intended: the text is cleared and the submission carries none. */
    method SkipAdditional() returns (s: Submission)
      modifies this
      ensures additional == ""
      ensures s == Submit(questions, answers, customAnswers, "")
      ensures s.additionalRequirements.None?
      ensures answers == old(answers) && customAnswers == old(customAnswers)
      ensures current == old(current) && showingAdditional == old(showingAdditional)
    {
      additional := "";
      s := SubmitAnswers();
      assert AdditionalRequirements("").None?;
    }
  }

  /** The skip as written still sends a text that was typed before skipping. */
  lemma SkipSendsClearedText(qs: seq<Question>, answers: map<string, string>, custom: map<string, string>, text: string, k: nat)
    requires k < |text| && text[k] !in JsSpace
    ensures Submit(qs, answers, custom, text).additionalRequirements.Some?
    ensures Submit(qs, answers, custom, "").additionalRequirements.None?
  {
  }
}
