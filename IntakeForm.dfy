/** The intake form: the fixed questionnaire, the form record it edits, and the
    submission payload handed to the page. */
module IntakeForm {
  import opened Wrappers

  // ---------------------------------------------------------------------------
  // The questionnaire
  // ---------------------------------------------------------------------------

  /** How an answer is entered: a multi-line text area or a one-line input. */
  datatype QuestionKind = Long | Short

  datatype Question = Question(id: string, text: string, kind: QuestionKind)

  /** One entry of the submitted `questionsAndAnswers` list. */
  datatype QuestionAnswer = QuestionAnswer(question: string, answer: string)

  /** The fixed questionnaire, in the order it is shown and submitted. */
  const Questions: seq<Question> := [
    Question("challenge", ChallengeText, Long),
    Question("impact", ImpactText, Long),
    Question("turning_point", TurningPointText, Long),
    Question("first_steps", FirstStepsText, Long),
    Question("support", SupportText, Long),
    Question("breakthrough", BreakthroughText, Long),
    Question("change", ChangeText, Long),
    Question("advice", AdviceText, Long)
  ]

  // The question texts.
  const ChallengeText: string := "Tell me about a significant challenge or obstacle you have faced in life that you successfully overcame"
  const ImpactText: string := "How did this challenge initially affect your mindset and daily life?"
  const TurningPointText: string := "What was the turning point that made you decide to make a positive change"
  const FirstStepsText: string := "What are some techniques or workshops you tried that you thought might help, but ended up being disappointing?"
  const SupportText: string := "Is there anything you tried that DID help you to overcome this challenge, and what about it do you feel made the most difference?"
  const BreakthroughText: string := "What was your biggest breakthrough moment - when things finally felt like they \"clicked\" for you?"
  const ChangeText: string := "How has overcoming this challenge changed your life for the better?"
  const AdviceText: string := "Anything else you would like to add to your story? You can also tell me how you would like me to tell the story - I am a highly intelligent AI who is specially trained in writing and storytelling..."

  ghost predicate DistinctIds(qs: seq<Question>)
  {
    forall i, j :: 0 <= i < j < |qs| ==> qs[i].id != qs[j].id
  }

  ghost function IdSet(qs: seq<Question>): set<string>
  {
    set i | 0 <= i < |qs| :: qs[i].id
  }

  /** The questionnaire's ids, in order. */
  lemma QuestionIds()
    ensures |Questions| == 8
    ensures Questions[0].id == "challenge" && Questions[1].id == "impact"
    ensures Questions[2].id == "turning_point" && Questions[3].id == "first_steps"
    ensures Questions[4].id == "support" && Questions[5].id == "breakthrough"
    ensures Questions[6].id == "change" && Questions[7].id == "advice"
  {
  }

  /** The questionnaire's ids are pairwise distinct and none contains a dot, so
      each question owns exactly one `answers.<id>` field. */
  lemma QuestionIdsWellFormed()
    ensures DistinctIds(Questions)
    ensures forall i | 0 <= i < |Questions| :: '.' !in Questions[i].id
  {
    QuestionIds();
    ListedIdsUndotted(Questions);
    ListedIdKeys(Questions);
    KeyedIdsDistinct(Questions);
  }

  // The three lemmas below prove the questionnaire's ids well formed from the
  // eight literals. Distinctness goes through `IdKeys`, which is cheaper for the
  // verifier than comparing the eight strings pairwise.

  /** The listed ids contain no dot. */
  lemma ListedIdsUndotted(qs: seq<Question>)
    requires |qs| == 8
    requires qs[0].id == "challenge" && qs[1].id == "impact"
    requires qs[2].id == "turning_point" && qs[3].id == "first_steps"
    requires qs[4].id == "support" && qs[5].id == "breakthrough"
    requires qs[6].id == "change" && qs[7].id == "advice"
    ensures forall i | 0 <= i < |qs| :: '.' !in qs[i].id
  {
  }

  /** A distinctness witness: each listed id's length and first letter. No two
      entries are equal, so no two ids are. */
  const IdKeys: seq<(int, char)> :=
    [(9, 'c'), (6, 'i'), (13, 't'), (11, 'f'), (7, 's'), (12, 'b'), (6, 'c'), (6, 'a')]

  /** The listed ids have the lengths and first letters of `IdKeys`. */
  lemma ListedIdKeys(qs: seq<Question>)
    requires |qs| == 8
    requires qs[0].id == "challenge" && qs[1].id == "impact"
    requires qs[2].id == "turning_point" && qs[3].id == "first_steps"
    requires qs[4].id == "support" && qs[5].id == "breakthrough"
    requires qs[6].id == "change" && qs[7].id == "advice"
    ensures forall i | 0 <= i < |qs| :: |qs[i].id| > 0 && (|qs[i].id|, qs[i].id[0]) == IdKeys[i]
  {
  }

  /** Ids that match `IdKeys` entry by entry are pairwise distinct. */
  lemma KeyedIdsDistinct(qs: seq<Question>)
    requires |qs| == |IdKeys|
    requires forall i | 0 <= i < |qs| :: |qs[i].id| > 0 && (|qs[i].id|, qs[i].id[0]) == IdKeys[i]
    ensures DistinctIds(qs)
  {
  }

  /** The initial answer map has one entry per question. */
  lemma QuestionCount()
    ensures |IdSet(Questions)| == |Questions|
  {
    QuestionIdsWellFormed();
    InitialAnswersSize(Questions);
  }

  // ---------------------------------------------------------------------------
  // The form record
  // ---------------------------------------------------------------------------

  /** The form's state record: three identity fields, the answers keyed by
      question id, and any other top-level key a change handler was given. */
  datatype FormState = FormState(
    name: string,
    email: string,
    phone: string,
    answers: map<string, string>,
    extra: map<string, string>)

  /** Keys of the record that have their own field. */
  const ReservedKeys: set<string> := {"name", "email", "phone", "answers"}

  /** No ordinary field is shadowed by an entry of `extra`. */
  ghost predicate WellShaped(f: FormState)
  {
    forall k | k in f.extra :: k !in ReservedKeys
  }

  /** Every question of the questionnaire has an entry in `answers`. */
  ghost predicate HasAllAnswers(f: FormState)
  {
    forall i | 0 <= i < |Questions| :: Questions[i].id in f.answers
  }

  /** The answer map built by folding the questions left to right, each one
      adding its id with an empty answer. */
  function InitialAnswers(qs: seq<Question>): (m: map<string, string>)
    ensures m.Keys == IdSet(qs)
    ensures forall k | k in m :: m[k] == ""
    decreases |qs|
  {
    if qs == [] then map[]
    else
      var prefix := qs[..|qs| - 1];
      assert qs == prefix + [qs[|qs| - 1]];
      assert IdSet(qs) == IdSet(prefix) + {qs[|qs| - 1].id};
      InitialAnswers(prefix)[qs[|qs| - 1].id := ""]
  }

  /** With distinct ids the fold yields exactly one entry per question. */
  lemma {:induction false} InitialAnswersSize(qs: seq<Question>)
    requires DistinctIds(qs)
    ensures |InitialAnswers(qs)| == |qs|
    decreases |qs|
  {
    if qs != [] {
      var prefix := qs[..|qs| - 1];
      var last := qs[|qs| - 1];
      assert DistinctIds(prefix);
      InitialAnswersSize(prefix);
      assert last.id !in IdSet(prefix);
    }
  }

  /** The state the form starts from when nothing was saved. */
  function InitialFormState(): (f: FormState)
    ensures f.name == "" && f.email == "" && f.phone == "" && f.extra == map[]
    ensures f.answers.Keys == IdSet(Questions)
    ensures forall k | k in f.answers :: f.answers[k] == ""
    ensures HasAllAnswers(f) && WellShaped(f)
  {
    FormState("", "", "", InitialAnswers(Questions), map[])
  }

  // ---------------------------------------------------------------------------
  // Field changes
  // ---------------------------------------------------------------------------

  /** Field names with this prefix address one answer. */
  const AnswersPrefix: string := "answers."

  /** The text up to (not including) the first dot: the second element of
      `("answers." + rest).split('.')`. */
  function FirstSegment(s: string): (r: string)
    ensures r <= s
    ensures '.' !in r
    ensures |r| < |s| ==> s[|r|] == '.'
  {
    if s == [] || s[0] == '.' then ""
    else [s[0]] + FirstSegment(s[1..])
  }

  /** The question id named by an `answers.`-prefixed field. */
  function QuestionIdOf(field: string): (id: string)
    requires AnswersPrefix <= field
    ensures AnswersPrefix + id <= field
    ensures '.' !in id
    ensures |AnswersPrefix + id| < |field| ==> field[|AnswersPrefix| + |id|] == '.'
  {
    FirstSegment(field[|AnswersPrefix|..])
  }

  /** The string value a top-level key of the record holds, if any. The
      `answers` key holds a map, not a string, and reads as `None` here. */
  function TopLevel(f: FormState, key: string): Option<string>
  {
    if key == "name" then Some(f.name)
    else if key == "email" then Some(f.email)
    else if key == "phone" then Some(f.phone)
    else if key in f.extra && key !in ReservedKeys then Some(f.extra[key])
    else None
  }

  function SetTopLevel(f: FormState, key: string, value: string): FormState
    requires key != "answers"
  {
    if key == "name" then f.(name := value)
    else if key == "email" then f.(email := value)
    else if key == "phone" then f.(phone := value)
    else f.(extra := f.extra[key := value])
  }

  /** The record after a change of `field` to `value`: an `answers.`-prefixed
      field sets one answer, any other field sets one top-level key. */
  function InputChange(f: FormState, field: string, value: string): (r: FormState)
    requires field != "answers"
    ensures AnswersPrefix <= field ==>
      && r.answers.Keys == f.answers.Keys + {QuestionIdOf(field)}
      && r.answers[QuestionIdOf(field)] == value
      && (forall k | k in f.answers && k != QuestionIdOf(field) :: r.answers[k] == f.answers[k])
      && (forall k :: TopLevel(r, k) == TopLevel(f, k))
    ensures !(AnswersPrefix <= field) ==>
      && r.answers == f.answers
      && TopLevel(r, field) == Some(value)
      && (forall k | k != field :: TopLevel(r, k) == TopLevel(f, k))
    ensures WellShaped(f) ==> WellShaped(r)
    ensures HasAllAnswers(f) ==> HasAllAnswers(r)
  {
    if AnswersPrefix <= field then
      f.(answers := f.answers[QuestionIdOf(field) := value])
    else
      SetTopLevel(f, field, value)
  }

  /** The field name each answer box passes, `answers.<id>`, changes exactly the
      answer of that question when the id has no dot. */
  lemma AnswerFieldChange(f: FormState, id: string, value: string)
    requires '.' !in id
    ensures InputChange(f, AnswersPrefix + id, value).answers == f.answers[id := value]
    ensures InputChange(f, AnswersPrefix + id, value).(answers := f.answers) == f
  {
    var field := AnswersPrefix + id;
    assert field[..|AnswersPrefix|] == AnswersPrefix;
    assert field[|AnswersPrefix|..] == id;
    FirstSegmentOfUndotted(id);
  }

  /** A text without a dot is its own first segment. */
  lemma FirstSegmentOfUndotted(s: string)
    requires '.' !in s
    ensures FirstSegment(s) == s
  {
  }

  // ---------------------------------------------------------------------------
  // Placeholders
  // ---------------------------------------------------------------------------

  /** Example answers shown in empty answer boxes. The texts here are short
      stand-ins for the application's longer examples. */
  const PlaceholderTable: map<string, string> := map[
    "challenge" := "Example: the fear I used to have of speaking in meetings.",
    "impact" := "Example: how I avoided every meeting I could.",
    "turning_point" := "Example: the moment I saw what fear was costing me.",
    "first_steps" := "Example: what I tried first and why it let me down.",
    "support" := "Example: what finally helped and why.",
    "breakthrough" := "Example: the day it all clicked.",
    "change" := "Example: how my working life looks now.",
    "advice" := "Example: how I would like the story told."
  ]

  /** The placeholder for a question id: its table entry, or the empty string
      for an id the table does not know. */
  function Placeholder(id: string): (r: string)
    ensures r != "" <==> id in PlaceholderTable
    ensures id in PlaceholderTable ==> r == PlaceholderTable[id]
  {
    if id in PlaceholderTable then PlaceholderTable[id] else ""
  }

  /** Every question has an example, and nothing else does. */
  lemma PlaceholdersCoverQuestions(id: string)
    ensures Placeholder(id) != "" <==> id in IdSet(Questions)
  {
    QuestionIds();
    if id in IdSet(Questions) {
      var i :| 0 <= i < |Questions| && Questions[i].id == id;
      assert id in PlaceholderTable;
    }
    if id in PlaceholderTable {
      var i: nat :| i < |Questions| && Questions[i].id == id;
    }
  }

  // ---------------------------------------------------------------------------
  // Submission
  // ---------------------------------------------------------------------------

  /** The record handed to the submit callback: every field of the form, plus
      the question/answer list. */
  datatype SubmittedForm = SubmittedForm(fields: FormState, questionsAndAnswers: seq<QuestionAnswer>)

  /** Pairs each question's text with the answer stored under its id. */
  function Pairs(qs: seq<Question>, answers: map<string, string>): (r: seq<QuestionAnswer>)
    requires forall i | 0 <= i < |qs| :: qs[i].id in answers
    ensures |r| == |qs|
    ensures forall i | 0 <= i < |qs| :: r[i] == QuestionAnswer(qs[i].text, answers[qs[i].id])
  {
    if qs == [] then []
    else [QuestionAnswer(qs[0].text, answers[qs[0].id])] + Pairs(qs[1..], answers)
  }

  /** The payload built on submit. The spread keeps every field of the form;
      an `extra` key named `questionsAndAnswers` is overridden by the list. */
  function FormatSubmission(f: FormState): (d: SubmittedForm)
    requires HasAllAnswers(f)
    ensures d.fields.name == f.name && d.fields.email == f.email && d.fields.phone == f.phone
    ensures d.fields.answers == f.answers
    ensures d.fields.extra.Keys == f.extra.Keys - {"questionsAndAnswers"}
    ensures forall k | k in d.fields.extra :: d.fields.extra[k] == f.extra[k]
    ensures |d.questionsAndAnswers| == |Questions|
    ensures forall i | 0 <= i < |Questions| ::
      d.questionsAndAnswers[i] == QuestionAnswer(Questions[i].text, f.answers[Questions[i].id])
  {
    SubmittedForm(f.(extra := f.extra - {"questionsAndAnswers"}), Pairs(Questions, f.answers))
  }

  /** How the awaited submit callback settled. */
  datatype Settlement = Resolved | Rejected(reason: string)

  /** The form component: its record and its submitting flag. */
  class StoryForm {
    var formData: FormState
    var isSubmitting: bool

    ghost predicate Valid()
      reads this
    {
      HasAllAnswers(formData) && WellShaped(formData)
    }

    /** A fresh form: the initial record, not submitting. */
    constructor ()
      ensures Valid()
      ensures formData == InitialFormState() && !isSubmitting
    {
      formData := InitialFormState();
      isSubmitting := false;
    }

    /** The change handler every input calls. */
    method HandleInputChange(field: string, value: string)
      requires Valid()
      requires field != "answers"
      modifies this
      ensures Valid()
      ensures formData == InputChange(old(formData), field, value)
      ensures isSubmitting == old(isSubmitting)
    {
      formData := InputChange(formData, field, value);
    }

    /** The part of submit before the callback is awaited: the flag is raised
        and the payload built. */
    method BeginSubmit() returns (payload: SubmittedForm)
      requires Valid()
      modifies this
      ensures Valid()
      ensures isSubmitting
      ensures formData == old(formData)
      ensures payload == FormatSubmission(formData)
    {
      isSubmitting := true;
      payload := FormatSubmission(formData);
    }

    /** The `finally` block: the flag is lowered however the callback settled. */
    method FinishSubmit(settled: Settlement)
      requires Valid()
      modifies this
      ensures Valid()
      ensures !isSubmitting
      ensures formData == old(formData)
    {
      isSubmitting := false;
    }

    /** The whole submit handler, given how the callback settles. */
    method HandleSubmit(settled: Settlement) returns (payload: SubmittedForm)
      requires Valid()
      modifies this
      ensures Valid()
      ensures !isSubmitting
      ensures formData == old(formData)
      ensures payload == FormatSubmission(formData)
    {
      payload := BeginSubmit();
      FinishSubmit(settled);
    }
  }
}
