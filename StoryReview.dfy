/** The review step: the conversation handed to the language model, the
    completion call, and the state the review screen keeps while the story is
    generated and revised. */
module StoryReview {
  import opened Wrappers
  import IntakeForm

  // ---------------------------------------------------------------------------
  // Messages and the initial prompt
  // ---------------------------------------------------------------------------

  datatype Role = System | User | Assistant

  /** One role-tagged entry of the conversation sent to the model. */
  datatype Message = Message(role: Role, content: string)

  /** The fixed task and style instructions. The text here is a short stand-in
      for the application's long instruction block; nothing depends on it. */
  const SystemPrompt: string := "\n    ## TASK\n\n    Write an inspirational first-person story from the user's answers.\n"

  /** The fixed opening of the user message, up to the name line. The text here
      is a short stand-in for the application's two instruction sentences. */
  const UserHeader: string := "\nCraft a first-person story from the following answers. \n\nUse first name and last initial only. \n\n"

  const NameLabel: string := "Name: "
  const QuestionLabel: string := "\nQ: "
  const AnswerLabel: string := "\nA: "
  const BlockEnd: string := "\n\n"
  const BlockSeparator: string := "\n\n"

  /** The rendering of one question/answer pair. */
  function QABlock(qa: IntakeForm.QuestionAnswer): (b: string)
    ensures OccursAt(b, |QuestionLabel|, qa.question)
    ensures OccursAt(b, |QuestionLabel| + |qa.question| + |AnswerLabel|, qa.answer)
    ensures |b| == |QuestionLabel| + |qa.question| + |AnswerLabel| + |qa.answer| + |BlockEnd|
  {
    FieldsOccur(QuestionLabel, qa.question, AnswerLabel, qa.answer, BlockEnd);
    QuestionLabel + qa.question + AnswerLabel + qa.answer + BlockEnd
  }

  function Blocks(qas: seq<IntakeForm.QuestionAnswer>): seq<string>
  {
    seq(|qas|, i requires 0 <= i < |qas| => QABlock(qas[i]))
  }

  /** The parts, with `sep` between neighbours (`Array.prototype.join`). */
  function Join(parts: seq<string>, sep: string): string
    decreases |parts|
  {
    if |parts| == 0 then ""
    else if |parts| == 1 then parts[0]
    else parts[0] + sep + Join(parts[1..], sep)
  }

  /** Where part `i` begins in `Join(parts, sep)`. */
  function JoinOffset(parts: seq<string>, sep: string, i: nat): nat
    requires i <= |parts|
    decreases i
  {
    if i == 0 then 0 else |parts[0]| + |sep| + JoinOffset(parts[1..], sep, i - 1)
  }

  /** The text before the first question/answer block. */
  function NameLine(name: string): (l: string)
    ensures UserHeader + NameLabel <= l
    ensures OccursAt(l, |UserHeader| + |NameLabel|, name)
    ensures |l| == |UserHeader| + |NameLabel| + |name| + 1 && l[|l| - 1] == '\n'
  {
    FieldsOccur(UserHeader + NameLabel, name, "\n", "", "");
    assert UserHeader + NameLabel + name + "\n" + "" + "" == UserHeader + NameLabel + name + "\n";
    UserHeader + NameLabel + name + "\n"
  }

  /** The user message: the header, the name line, then every pair's block
      joined by a blank line. */
  function UserDetails(name: string, qas: seq<IntakeForm.QuestionAnswer>): (c: string)
    ensures NameLine(name) <= c
    ensures qas == [] <==> c == NameLine(name)
  {
    NameLine(name) + Join(Blocks(qas), BlockSeparator)
  }

  /** The conversation the review starts from: the instructions as a system
      message, then the user's answers as a user message. */
  function CreateInitialPrompt(data: IntakeForm.SubmittedForm): (r: seq<Message>)
    ensures |r| == 2
    ensures r[0] == Message(System, SystemPrompt)
    ensures r[1].role == User
    ensures NameLine(data.fields.name) <= r[1].content
  {
    [ Message(System, SystemPrompt),
      Message(User, UserDetails(data.fields.name, data.questionsAndAnswers)) ]
  }

  /** The system message does not depend on the submitted data. */
  lemma SystemMessageIsFixed(a: IntakeForm.SubmittedForm, b: IntakeForm.SubmittedForm)
    ensures CreateInitialPrompt(a)[0] == CreateInitialPrompt(b)[0]
  {
  }

  /** `x` stands verbatim in `s` starting at offset `o`. */
  ghost predicate OccursAt(s: string, o: nat, x: string)
  {
    o + |x| <= |s| && s[o..o + |x|] == x
  }

  /** What stands at offset `o` of a suffix starting at `h` stands at `h + o`
      of the whole. */
  lemma SuffixOccurs(s: string, t: string, h: nat, o: nat, x: string)
    requires h <= |s| && s[h..] == t
    requires OccursAt(t, o, x)
    ensures OccursAt(s, h + o, x)
  {
    assert s[h..][o..o + |x|] == s[h + o..h + o + |x|];
  }

  /** What stands at offset `o` of `t` stands at `|p| + o` of `p + t`. */
  lemma AfterPrefix(p: string, t: string, o: nat, x: string)
    requires OccursAt(t, o, x)
    ensures OccursAt(p + t, |p| + o, x)
  {
    assert (p + t)[|p|..] == t;
    SuffixOccurs(p + t, t, |p|, o, x);
  }

  /** What stands inside an occurrence stands in the whole, shifted. */
  lemma InnerOccurs(s: string, lo: nat, x: string, k: nat, y: string)
    requires OccursAt(s, lo, x) && OccursAt(x, k, y)
    ensures OccursAt(s, lo + k, y)
  {
    forall u | lo + k <= u < lo + k + |y|
      ensures s[u] == y[u - lo - k]
    {
      assert s[lo..lo + |x|][u - lo] == s[u];
      assert x[k..k + |y|][u - lo - k] == x[u - lo];
    }
    assert s[lo + k..lo + k + |y|] == y;
  }

  /** The first part opens the joined text; when another part follows, the
      separator comes right after it. */
  lemma JoinHead(parts: seq<string>, sep: string)
    requires |parts| > 0
    ensures OccursAt(Join(parts, sep), 0, parts[0])
    ensures |parts| > 1 ==> OccursAt(Join(parts, sep), |parts[0]|, sep)
  {
    if |parts| > 1 {
      var rest := Join(parts[1..], sep);
      assert Join(parts, sep) == (parts[0] + sep) + rest;
    }
  }

  /** After the first part and a separator comes the join of the rest. */
  lemma JoinTail(parts: seq<string>, sep: string)
    requires |parts| > 1
    ensures |parts[0]| + |sep| <= |Join(parts, sep)|
    ensures Join(parts, sep)[|parts[0]| + |sep|..] == Join(parts[1..], sep)
  {
    var rest := Join(parts[1..], sep);
    assert Join(parts, sep) == (parts[0] + sep) + rest;
  }

  /** Part `i` stands verbatim at its offset in the joined text, and when
      another part follows, the separator comes right after it. */
  lemma {:induction false} JoinSlice(parts: seq<string>, sep: string, i: nat)
    requires i < |parts|
    ensures OccursAt(Join(parts, sep), JoinOffset(parts, sep, i), parts[i])
    ensures i + 1 < |parts| ==>
      OccursAt(Join(parts, sep), JoinOffset(parts, sep, i) + |parts[i]|, sep)
    decreases i
  {
    if i == 0 {
      JoinHead(parts, sep);
    } else {
      var j, rest := Join(parts, sep), Join(parts[1..], sep);
      var h, o := |parts[0]| + |sep|, JoinOffset(parts[1..], sep, i - 1);
      JoinTail(parts, sep);
      JoinSlice(parts[1..], sep, i - 1);
      assert parts[1..][i - 1] == parts[i];
      SuffixOccurs(j, rest, h, o, parts[i]);
      if i + 1 < |parts| {
        SuffixOccurs(j, rest, h, o + |parts[i]|, sep);
      }
      assert JoinOffset(parts, sep, i) == h + o;
    }
  }

  /** The joined text ends with the last part: nothing trails it. */
  lemma {:induction false} JoinLength(parts: seq<string>, sep: string)
    requires |parts| > 0
    ensures |Join(parts, sep)| == JoinOffset(parts, sep, |parts| - 1) + |parts[|parts| - 1]|
    decreases |parts|
  {
    if |parts| > 1 {
      JoinLength(parts[1..], sep);
    }
  }

  /** Offsets of later parts lie beyond an earlier part and its separator. */
  lemma {:induction false} JoinOffsetGrows(parts: seq<string>, sep: string, i: nat, j: nat)
    requires i < j <= |parts|
    ensures JoinOffset(parts, sep, i) + |parts[i]| + |sep| <= JoinOffset(parts, sep, j)
    decreases i
  {
    if i > 0 {
      JoinOffsetGrows(parts[1..], sep, i - 1, j - 1);
    }
  }

  /** Where the question of pair `i` begins in the user message. */
  function QuestionOffset(name: string, qas: seq<IntakeForm.QuestionAnswer>, i: nat): nat
    requires i < |qas|
  {
    |NameLine(name)| + JoinOffset(Blocks(qas), BlockSeparator, i) + |QuestionLabel|
  }

  /** Where the answer of pair `i` begins in the user message. */
  function AnswerOffset(name: string, qas: seq<IntakeForm.QuestionAnswer>, i: nat): nat
    requires i < |qas|
  {
    QuestionOffset(name, qas, i) + |qas[i].question| + |AnswerLabel|
  }

  /** Every question and every answer appears verbatim in the user message, at
      its own offset: answers are not validated, trimmed or escaped. */
  lemma PairVerbatim(data: IntakeForm.SubmittedForm, i: nat)
    requires i < |data.questionsAndAnswers|
    ensures var c := CreateInitialPrompt(data)[1].content;
      var name, qas := data.fields.name, data.questionsAndAnswers;
      && OccursAt(c, QuestionOffset(name, qas, i), qas[i].question)
      && OccursAt(c, AnswerOffset(name, qas, i), qas[i].answer)
  {
    var name, qas := data.fields.name, data.questionsAndAnswers;
    var c := UserDetails(name, qas);
    var lo := BlockVerbatim(name, qas, i);
    var b := QABlock(qas[i]);
    var q, a := qas[i].question, qas[i].answer;
    var ql, al := |QuestionLabel|, |AnswerLabel|;
    InnerOccurs(c, lo, b, ql, q);
    InnerOccurs(c, lo, b, ql + |q| + al, a);
  }

  /** In `p + x + m + y + e`, `x` stands right after `p` and `y` right after
      `m`. */
  lemma FieldsOccur(p: string, x: string, m: string, y: string, e: string)
    ensures OccursAt(p + x + m + y + e, |p|, x)
    ensures OccursAt(p + x + m + y + e, |p| + |x| + |m|, y)
  {
    var s := p + x + m + y + e;
    assert s[|p|..|p| + |x|] == x;
    assert s[|p| + |x| + |m|..|p| + |x| + |m| + |y|] == y;
  }

  /** In `p + x + m + y + e`, the three fixed parts `p`, `m` and `e` stand
      around the fields `x` and `y`. */
  lemma SeparatorsOccur(p: string, x: string, m: string, y: string, e: string)
    ensures OccursAt(p + x + m + y + e, 0, p)
    ensures OccursAt(p + x + m + y + e, |p| + |x|, m)
    ensures OccursAt(p + x + m + y + e, |p| + |x| + |m| + |y|, e)
  {
    var s := p + x + m + y + e;
    assert s[..|p|] == p;
    assert s[|p| + |x|..|p| + |x| + |m|] == m;
    assert s[|p| + |x| + |m| + |y|..|s|] == e;
  }

  /** A pair's block opens with the `Q:` label, has the `A:` label between the
      question and the answer, and closes with a blank line. */
  lemma QABlockLabels(qa: IntakeForm.QuestionAnswer)
    ensures OccursAt(QABlock(qa), 0, QuestionLabel)
    ensures OccursAt(QABlock(qa), |QuestionLabel| + |qa.question|, AnswerLabel)
    ensures OccursAt(QABlock(qa), |QABlock(qa)| - |BlockEnd|, BlockEnd)
  {
    SeparatorsOccur(QuestionLabel, qa.question, AnswerLabel, qa.answer, BlockEnd);
  }

  /** In the user message the `Q:` label stands right before each question and
      the `A:` label right before each answer. */
  lemma PairLabels(data: IntakeForm.SubmittedForm, i: nat)
    requires i < |data.questionsAndAnswers|
    ensures var c := CreateInitialPrompt(data)[1].content;
      var name, qas := data.fields.name, data.questionsAndAnswers;
      var q, a := QuestionOffset(name, qas, i), AnswerOffset(name, qas, i);
      && q >= |QuestionLabel| && OccursAt(c, q - |QuestionLabel|, QuestionLabel)
      && a >= |AnswerLabel| && OccursAt(c, a - |AnswerLabel|, AnswerLabel)
  {
    var name, qas := data.fields.name, data.questionsAndAnswers;
    var lo := BlockVerbatim(name, qas, i);
    LabelsAround(UserDetails(name, qas), lo, qas[i]);
  }

  /** In the user message each answer is followed by the closing blank line,
      and that by the blank-line separator when another pair follows. */
  lemma PairClosing(data: IntakeForm.SubmittedForm, i: nat)
    requires i < |data.questionsAndAnswers|
    ensures var c := CreateInitialPrompt(data)[1].content;
      var name, qas := data.fields.name, data.questionsAndAnswers;
      var e := AnswerOffset(name, qas, i) + |qas[i].answer|;
      && OccursAt(c, e, BlockEnd)
      && (i + 1 < |qas| ==> OccursAt(c, e + |BlockEnd|, BlockSeparator))
  {
    var name, qas := data.fields.name, data.questionsAndAnswers;
    var lo := BlockVerbatim(name, qas, i);
    LabelsAround(UserDetails(name, qas), lo, qas[i]);
    if i + 1 < |qas| {
      SeparatorVerbatim(name, qas, i);
    }
  }

  /** Wherever a pair's block stands, its labels and closing blank line stand
      around its question and answer. */
  lemma LabelsAround(c: string, lo: nat, qa: IntakeForm.QuestionAnswer)
    requires OccursAt(c, lo, QABlock(qa))
    ensures OccursAt(c, lo, QuestionLabel)
    ensures OccursAt(c, lo + |QuestionLabel| + |qa.question|, AnswerLabel)
    ensures OccursAt(c, lo + |QABlock(qa)| - |BlockEnd|, BlockEnd)
  {
    var b := QABlock(qa);
    QABlockLabels(qa);
    InnerOccurs(c, lo, b, 0, QuestionLabel);
    InnerOccurs(c, lo, b, |QuestionLabel| + |qa.question|, AnswerLabel);
    InnerOccurs(c, lo, b, |b| - |BlockEnd|, BlockEnd);
  }

  /** Between the blocks of pairs `i` and `i + 1` of the user message stands
      the blank-line separator. */
  lemma SeparatorVerbatim(name: string, qas: seq<IntakeForm.QuestionAnswer>, i: nat)
    requires i + 1 < |qas|
    ensures OccursAt(UserDetails(name, qas),
      |NameLine(name)| + JoinOffset(Blocks(qas), BlockSeparator, i) + |QABlock(qas[i])|, BlockSeparator)
  {
    var parts := Blocks(qas);
    JoinSlice(parts, BlockSeparator, i);
    assert parts[i] == QABlock(qas[i]);
    AfterPrefix(NameLine(name), Join(parts, BlockSeparator),
      JoinOffset(parts, BlockSeparator, i) + |parts[i]|, BlockSeparator);
  }

  /** The block of pair `i` stands verbatim in the user message, after the
      name line, at its offset in the joined blocks. */
  lemma BlockVerbatim(name: string, qas: seq<IntakeForm.QuestionAnswer>, i: nat) returns (lo: nat)
    requires i < |qas|
    ensures lo == |NameLine(name)| + JoinOffset(Blocks(qas), BlockSeparator, i)
    ensures OccursAt(UserDetails(name, qas), lo, QABlock(qas[i]))
  {
    var parts := Blocks(qas);
    JoinSlice(parts, BlockSeparator, i);
    assert parts[i] == QABlock(qas[i]);
    lo := |NameLine(name)| + JoinOffset(parts, BlockSeparator, i);
    AfterPrefix(NameLine(name), Join(parts, BlockSeparator), JoinOffset(parts, BlockSeparator, i), parts[i]);
  }

  /** The pairs appear in their original order, each after the previous one
      has ended. */
  lemma PairsInOrder(data: IntakeForm.SubmittedForm, i: nat, j: nat)
    requires i < j < |data.questionsAndAnswers|
    ensures var name, qas := data.fields.name, data.questionsAndAnswers;
      AnswerOffset(name, qas, i) + |qas[i].answer| < QuestionOffset(name, qas, j)
  {
    var qas := data.questionsAndAnswers;
    JoinOffsetGrows(Blocks(qas), BlockSeparator, i, j);
  }

  /** With no pairs the user message ends right after the name line; otherwise
      it ends right after the last pair's block. */
  lemma UserDetailsEnd(data: IntakeForm.SubmittedForm)
    ensures var c := CreateInitialPrompt(data)[1].content;
      var name, qas := data.fields.name, data.questionsAndAnswers;
      if qas == [] then c == NameLine(name)
      else |c| == AnswerOffset(name, qas, |qas| - 1) + |qas[|qas| - 1].answer| + |BlockEnd|
  {
    var qas := data.questionsAndAnswers;
    if qas != [] {
      JoinLength(Blocks(qas), BlockSeparator);
    }
  }

  // ---------------------------------------------------------------------------
  // The completion call
  // ---------------------------------------------------------------------------

  /** Every failure of the completion call is reported with this prefix. */
  const ErrorPrefix: string := "Error generating story: "

  /** The message thrown for a non-success HTTP status. */
  const NotOkMessage: string := "Failed to generate story"

  /** The message of the `TypeError` a browser raises when the reply has no
      first choice (the wording is the JavaScript engine's). */
  const NoChoiceMessage: string := "Cannot read properties of undefined (reading 'message')"

  /** The decoded body of a reply: the first-choice contents, or the reason the
      body could not be read. A body that is JSON but has no `choices` list, or
      whose first choice has no `message`, also fails with a `TypeError`; it is
      represented here as `Unparsable` carrying that error's message. */
  datatype Payload = Parsed(choices: seq<string>) | Unparsable(reason: string)

  /** What the provider does with one request: the request never completes, or
      it completes with a status and a body. */
  datatype Reply = Unreachable(reason: string) | Responded(ok: bool, payload: Payload)

  /** The language-model provider, as a function of the conversation sent. */
  type Provider = seq<Message> -> Reply

  /** The completion call: the first choice's content on success, otherwise one
      error whose message carries the prefix and the underlying reason. */
  function GenerateStory(provider: Provider, messages: seq<Message>): (r: Result<string>)
    ensures r.Err? ==> ErrorPrefix <= r.error
    ensures r.Ok? <==>
      && provider(messages).Responded?
      && provider(messages).ok
      && provider(messages).payload.Parsed?
      && |provider(messages).payload.choices| > 0
    ensures r.Ok? ==> r.value == provider(messages).payload.choices[0]
    ensures provider(messages).Responded? && !provider(messages).ok ==>
      r == Err(ErrorPrefix + NotOkMessage)
    ensures provider(messages).Unreachable? ==> r == Err(ErrorPrefix + provider(messages).reason)
    ensures provider(messages).Responded? && provider(messages).ok && provider(messages).payload.Unparsable? ==>
      r == Err(ErrorPrefix + provider(messages).payload.reason)
    ensures provider(messages).Responded? && provider(messages).ok && provider(messages).payload == Parsed([]) ==>
      r == Err(ErrorPrefix + NoChoiceMessage)
  {
    match provider(messages)
    case Unreachable(reason) => Err(ErrorPrefix + reason)
    case Responded(ok, payload) =>
      if !ok then Err(ErrorPrefix + NotOkMessage)
      else match payload
        case Unparsable(reason) => Err(ErrorPrefix + reason)
        case Parsed(choices) =>
          if |choices| == 0 then Err(ErrorPrefix + NoChoiceMessage) else Ok(choices[0])
  }

  // ---------------------------------------------------------------------------
  // The review state and its transitions
  // ---------------------------------------------------------------------------

  /** The review screen's state variables. */
  datatype ReviewState = ReviewState(
    story: string,
    isLoading: bool,
    error: Option<string>,
    isRevisionModalOpen: bool,
    revisionRequest: string,
    messages: seq<Message>)

  /** The state before the initial effect has run. */
  function Initial(): (s: ReviewState)
    ensures s.isLoading && s.story == "" && s.error == None && s.messages == []
    ensures !s.isRevisionModalOpen && s.revisionRequest == ""
  {
    ReviewState("", true, None, false, "", [])
  }

  /** The initial effect: seed the conversation, ask for a story, and record
      the story or the error. */
  function Mount(data: IntakeForm.SubmittedForm, provider: Provider): (s: ReviewState)
    ensures s.messages == CreateInitialPrompt(data)
    ensures !s.isLoading && !s.isRevisionModalOpen && s.revisionRequest == ""
    ensures GenerateStory(provider, CreateInitialPrompt(data)).Ok? ==>
      s.story == GenerateStory(provider, CreateInitialPrompt(data)).value && s.error == None
    ensures GenerateStory(provider, CreateInitialPrompt(data)).Err? ==>
      s.story == "" && s.error == Some(GenerateStory(provider, CreateInitialPrompt(data)).error)
  {
    var prompt := CreateInitialPrompt(data);
    var s := Initial().(messages := prompt);
    match GenerateStory(provider, prompt)
    case Ok(text) => s.(story := text, isLoading := false)
    case Err(e) => s.(error := Some(e), isLoading := false)
  }

  /** Open the revision dialog. */
  function OpenRevision(s: ReviewState): (t: ReviewState)
    ensures t.isRevisionModalOpen
    ensures t.(isRevisionModalOpen := s.isRevisionModalOpen) == s
  {
    s.(isRevisionModalOpen := true)
  }

  /** Close the revision dialog without submitting. */
  function CancelRevision(s: ReviewState): (t: ReviewState)
    ensures !t.isRevisionModalOpen
    ensures t.(isRevisionModalOpen := s.isRevisionModalOpen) == s
  {
    s.(isRevisionModalOpen := false)
  }

  /** Edit the pending revision instruction. */
  function EditRevision(s: ReviewState, text: string): (t: ReviewState)
    ensures t.revisionRequest == text
    ensures t.(revisionRequest := s.revisionRequest) == s
  {
    s.(revisionRequest := text)
  }

  /** The conversation a revision sends: the history plus the instruction. */
  function RevisionRequestMessages(s: ReviewState): (m: seq<Message>)
    ensures |m| == |s.messages| + 1 && m[..|s.messages|] == s.messages
    ensures m[|s.messages|] == Message(User, s.revisionRequest)
  {
    s.messages + [Message(User, s.revisionRequest)]
  }

  /** The revision handler. On success the story is replaced and the
      instruction (only the instruction) joins the history; on failure the
      history and the story stay as they were and the error is recorded.
      Either way the dialog is closed and the instruction cleared. */
  function Revise(s: ReviewState, provider: Provider): (t: ReviewState)
    ensures !t.isLoading && !t.isRevisionModalOpen && t.revisionRequest == ""
    ensures GenerateStory(provider, RevisionRequestMessages(s)).Ok? ==>
      && t.messages == s.messages + [Message(User, s.revisionRequest)]
      && t.story == GenerateStory(provider, RevisionRequestMessages(s)).value
      && t.error == s.error
    ensures GenerateStory(provider, RevisionRequestMessages(s)).Err? ==>
      && t.messages == s.messages
      && t.story == s.story
      && t.error == Some(GenerateStory(provider, RevisionRequestMessages(s)).error)
  {
    var sent := RevisionRequestMessages(s);
    var pending := s.(isLoading := true, isRevisionModalOpen := false);
    var settled :=
      match GenerateStory(provider, sent)
      case Ok(text) => pending.(story := text, messages := sent)
      case Err(e) => pending.(error := Some(e));
    settled.(isLoading := false, revisionRequest := "")
  }

  /** The user actions available on the review screen once it has mounted. */
  datatype Action =
    | OpenEditor
    | CancelEditor
    | Type(text: string)
    | SubmitRevision(provider: Provider)

  /** One user action. Only a submitted revision touches the history, the
      story or the error; it adds at most one message and never clears an
      error. */
  function Step(s: ReviewState, a: Action): (t: ReviewState)
    ensures s.messages <= t.messages && |t.messages| <= |s.messages| + 1
    ensures s.error.Some? ==> t.error.Some?
    ensures !a.SubmitRevision? ==>
      t.messages == s.messages && t.story == s.story && t.error == s.error
  {
    match a
    case OpenEditor => OpenRevision(s)
    case CancelEditor => CancelRevision(s)
    case Type(text) => EditRevision(s, text)
    case SubmitRevision(provider) => Revise(s, provider)
  }

  /** A sequence of user actions, in order. The history only grows, by at
      most one message per action; a recorded error stays recorded; and
      without a submitted revision the history, story and error are as
      before. */
  function Run(s: ReviewState, actions: seq<Action>): (t: ReviewState)
    ensures s.messages <= t.messages && |t.messages| <= |s.messages| + |actions|
    ensures s.error.Some? ==> t.error.Some?
    ensures (forall i | 0 <= i < |actions| :: !actions[i].SubmitRevision?) ==>
      t.messages == s.messages && t.story == s.story && t.error == s.error
    decreases |actions|
  {
    if actions == [] then s else Run(Step(s, actions[0]), actions[1..])
  }

  // ---------------------------------------------------------------------------
  // Invariants of the conversation history
  // ---------------------------------------------------------------------------

  /** The history is the initial prompt followed by user messages only. */
  ghost predicate HistoryShape(data: IntakeForm.SubmittedForm, s: ReviewState)
  {
    && |s.messages| >= 2
    && s.messages[..2] == CreateInitialPrompt(data)
    && forall i | 2 <= i < |s.messages| :: s.messages[i].role == User
  }

  /** Every recorded error carries the completion call's prefix. */
  ghost predicate ErrorsPrefixed(s: ReviewState)
  {
    s.error.Some? ==> ErrorPrefix <= s.error.value
  }

  /** The first message is the only system message and no message is an
      assistant reply. */
  lemma HistoryRoles(data: IntakeForm.SubmittedForm, s: ReviewState)
    requires HistoryShape(data, s)
    ensures forall i | 0 <= i < |s.messages| :: (s.messages[i].role == System <==> i == 0)
    ensures forall i | 0 <= i < |s.messages| :: s.messages[i].role != Assistant
  {
    var p := CreateInitialPrompt(data);
    assert s.messages[0] == p[0] && s.messages[1] == p[1];
  }

  lemma MountEstablishes(data: IntakeForm.SubmittedForm, provider: Provider)
    ensures HistoryShape(data, Mount(data, provider))
    ensures ErrorsPrefixed(Mount(data, provider))
  {
  }

  lemma StepPreserves(data: IntakeForm.SubmittedForm, s: ReviewState, a: Action)
    requires HistoryShape(data, s) && ErrorsPrefixed(s)
    ensures HistoryShape(data, Step(s, a)) && ErrorsPrefixed(Step(s, a))
    ensures s.messages <= Step(s, a).messages
    ensures |Step(s, a).messages| <= |s.messages| + 1
    ensures s.error.Some? ==> Step(s, a).error.Some?
  {
    if a.SubmitRevision? {
      var t := Revise(s, a.provider);
      if t.messages != s.messages {
        assert t.messages[..|s.messages|] == s.messages;
        assert t.messages[..2] == s.messages[..2];
      }
    }
  }

  /** Whatever the user does after the review mounts, the history keeps its
      shape, never loses a message, and a recorded error is never cleared. */
  lemma {:induction false} RunPreserves(data: IntakeForm.SubmittedForm, s: ReviewState, actions: seq<Action>)
    requires HistoryShape(data, s) && ErrorsPrefixed(s)
    ensures HistoryShape(data, Run(s, actions)) && ErrorsPrefixed(Run(s, actions))
    ensures s.messages <= Run(s, actions).messages
    ensures s.error.Some? ==> Run(s, actions).error.Some?
    decreases |actions|
  {
    if actions != [] {
      StepPreserves(data, s, actions[0]);
      RunPreserves(data, Step(s, actions[0]), actions[1..]);
    }
  }

  /** Each session, from mount through any actions, never holds an assistant
      message. */
  lemma NoAssistantEver(data: IntakeForm.SubmittedForm, provider: Provider, actions: seq<Action>)
    ensures var s := Run(Mount(data, provider), actions);
      forall i | 0 <= i < |s.messages| :: s.messages[i].role != Assistant
  {
    MountEstablishes(data, provider);
    RunPreserves(data, Mount(data, provider), actions);
    HistoryRoles(data, Run(Mount(data, provider), actions));
  }

  // ---------------------------------------------------------------------------
  // What is shown
  // ---------------------------------------------------------------------------

  datatype ReviewScreen = LoadingScreen | ErrorScreen(message: string) | StoryScreen(markdown: string)

  /** The screen chosen by precedence: loading, then a (non-empty) error, then
      the story. */
  function Screen(s: ReviewState): (v: ReviewScreen)
    ensures v.LoadingScreen? <==> s.isLoading
    ensures v.ErrorScreen? <==> !s.isLoading && s.error.Some? && s.error.value != ""
    ensures v.ErrorScreen? ==> v.message == s.error.value
    ensures v.StoryScreen? ==> v.markdown == s.story
  {
    if s.isLoading then LoadingScreen
    else if s.error.Some? && s.error.value != "" then ErrorScreen(s.error.value)
    else StoryScreen(s.story)
  }

  /** A recorded error always takes over the screen once loading is over. */
  lemma ErrorWins(s: ReviewState)
    requires ErrorsPrefixed(s) && !s.isLoading && s.error.Some?
    ensures Screen(s) == ErrorScreen(s.error.value)
  {
    assert |s.error.value| >= |ErrorPrefix|;
  }

  /** The share link; it does not depend on the story. */
  const ShareUrl: string := "https://www.facebook.com/sharer/sharer.php?u=https://landmarkforum.com&quote=Hamster"

  /** The link to share: the source encodes the story and then ignores it. */
  function GenerateShareableLink(story: string): (link: string)
    ensures link == ShareUrl
  {
    ShareUrl
  }

  lemma ShareLinkIgnoresStory(a: string, b: string)
    ensures GenerateShareableLink(a) == GenerateShareableLink(b)
  {
  }

  // ---------------------------------------------------------------------------
  // The component
  // ---------------------------------------------------------------------------

  /** The review component for one submitted form. Creating it runs the first
      render's state initialisation and the initial effect. */
  class ReviewSession {
    const formData: IntakeForm.SubmittedForm
    var story: string
    var isLoading: bool
    var error: Option<string>
    var isRevisionModalOpen: bool
    var revisionRequest: string
    var messages: seq<Message>

    function State(): ReviewState
      reads this
    {
      ReviewState(story, isLoading, error, isRevisionModalOpen, revisionRequest, messages)
    }

    ghost predicate Valid()
      reads this
    {
      HistoryShape(formData, State()) && ErrorsPrefixed(State())
    }

    constructor (data: IntakeForm.SubmittedForm, provider: Provider)
      ensures formData == data
      ensures State() == Mount(data, provider)
      ensures Valid()
    {
      formData := data;
      story, isLoading, error := "", true, None;
      isRevisionModalOpen, revisionRequest, messages := false, "", [];
      var initialMessages := CreateInitialPrompt(data);
      messages := initialMessages;
      var outcome := GenerateStory(provider, initialMessages);
      match outcome {
        case Ok(text) =>
          story := text;
          isLoading := false;
        case Err(e) =>
          error := Some(e);
          isLoading := false;
      }
      MountEstablishes(data, provider);
    }

    method OpenRevisionModal()
      requires Valid()
      modifies this
      ensures Valid()
      ensures State() == OpenRevision(old(State()))
    {
      isRevisionModalOpen := true;
      StepPreserves(formData, old(State()), OpenEditor);
    }

    method CloseRevisionModal()
      requires Valid()
      modifies this
      ensures Valid()
      ensures State() == CancelRevision(old(State()))
    {
      isRevisionModalOpen := false;
      StepPreserves(formData, old(State()), CancelEditor);
    }

    method SetRevisionRequest(text: string)
      requires Valid()
      modifies this
      ensures Valid()
      ensures State() == EditRevision(old(State()), text)
    {
      revisionRequest := text;
      StepPreserves(formData, old(State()), Type(text));
    }

    method HandleRevisionRequest(provider: Provider)
      requires Valid()
      modifies this
      ensures Valid()
      ensures State() == Revise(old(State()), provider)
    {
      isLoading := true;
      isRevisionModalOpen := false;
      var updatedMessages := messages + [Message(User, revisionRequest)];
      var outcome := GenerateStory(provider, updatedMessages);
      match outcome {
        case Ok(revisedStory) =>
          story := revisedStory;
          messages := updatedMessages;
        case Err(e) =>
          error := Some(e);
      }
      isLoading := false;
      revisionRequest := "";
      StepPreserves(formData, old(State()), SubmitRevision(provider));
    }

    /** The screen this component renders now: the loading screen while
        loading, then any recorded error, then the story. */
    function CurrentScreen(): (v: ReviewScreen)
      reads this
      requires Valid()
      ensures v.LoadingScreen? <==> isLoading
      ensures !isLoading && error.Some? ==> v == ErrorScreen(error.value)
      ensures !isLoading && error.None? ==> v == StoryScreen(story)
    {
      if !isLoading && error.Some? then ErrorWins(State()); Screen(State())
      else Screen(State())
    }
  }
}
