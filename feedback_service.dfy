/** The feedback service: it validates a job and the candidate's question/answer pairs,
    builds one of two prompts (one for a single answer, one for a whole interview) around
    a numbered block of the pairs, asks the text generator for feedback and hands the
    reply back unchanged together with the job's title. */
module FeedbackService {
  import opened PyBuiltins
  import opened PyJson
  import opened ServiceErrors
  import opened External

  const InvalidJobMessage := "Invalid job object provided."
  const InvalidPairsMessage := "Invalid questions and answers provided."
  const FeedbackFailedMessage := "Failed to generate feedback from AI service."
  const FeedbackUnexpectedMessage := "An unexpected error occurred while generating feedback."

  /** `not qa_pairs or not isinstance(qa_pairs, list)` is false. */
  predicate IsNonEmptyList(v: Json) {
    v.Arr? && v.items != []
  }

  // ---------------------------------------------------------------------------
  // The numbered block of questions and answers
  // ---------------------------------------------------------------------------

  /** `v[key]` for a string key: the value of a dict's first member with that key; a
      KeyError when the dict lacks it; a TypeError when `v` is not a dict. */
  function Subscript(v: Json, key: string): (r: Result<Json>)
    ensures r.Ok? <==> v.Obj? && HasKey(v.members, key)
    ensures r.Ok? ==> Lookup(v.members, key) == Some(r.value)
    ensures r.Err? ==> r.error.OtherError?
  {
    match v
    case Obj(members) =>
      (match Lookup(members, key)
       case Some(value) => Ok(value)
       case None => Err(OtherError(Repr(Str(key)))))
    case Arr(_) => Err(OtherError("list indices must be integers or slices, not str"))
    case Str(_) => Err(OtherError("string indices must be integers, not 'str'"))
    case _ => Err(OtherError("'" + TypeName(v) + "' object is not subscriptable"))
  }

  const NumberedQuestion := "Question "
  const NumberedAnswer := "\nAnswer "
  const NumberColon := ": "
  const PairEnd := "\n\n"

  /** The pieces the loop appends for the pair at (zero-based) position `i`. */
  function EntryParts(i: nat, question: Json, answer: Json): seq<string> {
    var n := NatToString(i + 1);
    [NumberedQuestion, n, NumberColon, Display(question), NumberedAnswer, n, NumberColon, Display(answer), PairEnd]
  }

  /** The text one turn of the loop appends for the pair `qa` at position `i`, or the
      error its `qa['question']` or `qa['answer']` raises. */
  function QaEntry(i: nat, qa: Json): Result<string> {
    match Subscript(qa, "question")
    case Err(e) => Err(e)
    case Ok(question) =>
      match Subscript(qa, "answer")
      case Err(e) => Err(e)
      case Ok(answer) => Ok(Concat(EntryParts(i, question, answer)))
  }

  /** A pair can be numbered exactly when it is a dict with both keys, and then its entry
      starts with "Question " and holds its number, its question and its answer. */
  lemma QaEntrySpec(i: nat, qa: Json)
    ensures QaEntry(i, qa).Ok? <==> qa.Obj? && HasKey(qa.members, "question") && HasKey(qa.members, "answer")
    ensures QaEntry(i, qa).Ok? ==>
      var e := QaEntry(i, qa).value;
      && StartsWith(e, NumberedQuestion)
      && Contains(e, NatToString(i + 1))
      && Contains(e, Display(Lookup(qa.members, "question").value))
      && Contains(e, Display(Lookup(qa.members, "answer").value))
  {
    if QaEntry(i, qa).Ok? {
      var parts := EntryParts(i, Subscript(qa, "question").value, Subscript(qa, "answer").value);
      ConcatStartsWith(parts);
      ConcatContains(parts, 1);
      ConcatContains(parts, 3);
      ConcatContains(parts, 7);
    }
  }

  /** The entry of every pair, in input order. */
  function QaEntries(pairs: seq<Json>): (r: seq<Result<string>>)
    ensures |r| == |pairs|
    ensures forall i :: 0 <= i < |pairs| ==> r[i] == QaEntry(i, pairs[i])
  {
    seq(|pairs|, i requires 0 <= i < |pairs| => QaEntry(i, pairs[i]))
  }

  /** `questions_and_answers` once the loop has run over every pair, or the error of the
      first pair that cannot be numbered. */
  function QaBlock(pairs: seq<Json>): Result<string> {
    var entries := Collect(QaEntries(pairs));
    if entries.Ok? then Ok(Concat(entries.value)) else Err(entries.error)
  }

  /** The block exists exactly when every pair can be numbered; it then holds every pair's
      entry, and otherwise carries the error of the first pair that cannot. */
  lemma QaBlockSpec(pairs: seq<Json>)
    ensures QaBlock(pairs).Ok? <==> forall i :: 0 <= i < |pairs| ==> QaEntry(i, pairs[i]).Ok?
    ensures QaBlock(pairs).Ok? ==> forall i :: 0 <= i < |pairs| ==> Contains(QaBlock(pairs).value, QaEntry(i, pairs[i]).value)
    ensures QaBlock(pairs).Err? ==>
      exists i :: (&& 0 <= i < |pairs| && QaEntry(i, pairs[i]).Err?
                   && (forall k :: 0 <= k < i ==> QaEntry(k, pairs[k]).Ok?)
                   && QaBlock(pairs).error == QaEntry(i, pairs[i]).error)
    ensures QaBlock(pairs).Err? ==> QaBlock(pairs).error.OtherError?
  {
    var results := QaEntries(pairs);
    CollectSpec(results);
    var c := Collect(results);
    if c.Ok? {
      forall i | 0 <= i < |pairs|
        ensures Contains(QaBlock(pairs).value, QaEntry(i, pairs[i]).value)
      {
        ConcatContains(c.value, i);
      }
    } else {
      var i :| FirstFailure(results, i) && c.error == results[i].error;
      assert QaEntry(i, pairs[i]).Err?;
    }
  }

  /** Every numbered block starts with the first question's entry. */
  lemma QaBlockStartsWithFirst(pairs: seq<Json>)
    requires pairs != [] && QaBlock(pairs).Ok?
    ensures QaEntry(0, pairs[0]).Ok? && StartsWith(QaBlock(pairs).value, QaEntry(0, pairs[0]).value)
  {
    var results := QaEntries(pairs);
    CollectSpec(results);
    ConcatStartsWith(Collect(results).value);
  }

  // ---------------------------------------------------------------------------
  // The two templates
  // ---------------------------------------------------------------------------

  /** The fixed text of a template, around its interpolated title, description, skills
      line and block. */
  datatype Wording = Wording(
    opening: string, overview: string, descriptionLabel: string, skillsLabel: string,
    responsesLabel: string, closing: string)

  /** The pieces of a template's f-string. */
  function Fill(w: Wording, title: string, description: string, skills: string, block: string): seq<string> {
    [w.opening, title, w.overview, title, w.descriptionLabel, description, w.skillsLabel, skills,
     w.responsesLabel, block, w.closing]
  }

  /** Any template holds the title, the description, the skills line, the block and its
      own responses label. */
  lemma FillHolds(w: Wording, title: string, description: string, skills: string, block: string)
    ensures var p := Concat(Fill(w, title, description, skills, block));
      && StartsWith(p, w.opening)
      && Contains(p, title) && Contains(p, description) && Contains(p, skills) && Contains(p, block)
      && Contains(p, w.responsesLabel)
  {
    var parts := Fill(w, title, description, skills, block);
    ConcatStartsWith(parts);
    ConcatContains(parts, 1);
    ConcatContains(parts, 5);
    ConcatContains(parts, 7);
    ConcatContains(parts, 8);
    ConcatContains(parts, 9);
  }

  const SingleOpening := "\nAs" + " a highly 10x expert experienced interviewer evaluating a candidate for the role of \""
  const SingleWording := Wording(
    SingleOpening,
    "\", review the following interview answer in depth.\n\nJob Overview:\n\n    Title: ",
    "\n\n    Summary: ",
    "\n\n    Key Skills Required: ",
    "\n\nInterview Response:\n",
    "\n\nProvide a detailed, structured critique of the candidate's response, reflecting the "
    + "expectations for this role. Begin with a brief overall impression, then naturally elaborate on what the "
    + "candidate did well, what was lacking, and how the answer could be improved\U{2014}all embedded smoothly in "
    + "a single narrative.\n\nFocus your evaluation on relevance, clarity, technical depth, alignment with the "
    + "role, and best practices in the field. Do not label sections (e.g., no \"Strengths\" or \"Weaknesses\")"
    + "\U{2014}just write a flowing, constructive analysis with clear reasoning and specific, actionable insights.\n")

  const MultiOpening := "\nYou" + " are a 10x expert experienced interviewer assessing a candidate for the role of \""
  const FiveQuestions := "5 Interview Questions"
  const MultiResponsesLead := "\n\nCandidate\U{2019}s Responses to "
  const MultiResponsesTail := ":\n"
  const MultiWording := Wording(
    MultiOpening,
    "\".\n\nRole Overview:\n\n    Title: ",
    "\n\n    Description: ",
    "\n\n    Key Skills: ",
    MultiResponsesLead + FiveQuestions + MultiResponsesTail,
    "\n\nBased on the full interview, write a detailed, thoughtful evaluation of the candidate's "
    + "overall performance. Assess their strengths, weaknesses, and fit for the role, weaving all insights into a "
    + "single, flowing narrative. Avoid listing or labeling sections\U{2014}deliver clear, specific, and actionable "
    + "feedback as a unified analysis.\n\nConsider depth of experience, clarity of communication, alignment with "
    + "job expectations, and industry standards. Finish with a brief, reasoned hiring recommendation embedded "
    + "naturally in the summary.\n")

  /** The single-answer template exactly when there is one pair. */
  function WordingFor(count: nat): Wording {
    if count == 1 then SingleWording else MultiWording
  }

  function Template(title: string, description: string, skills: string, block: string, count: nat): string {
    Concat(Fill(WordingFor(count), title, description, skills, block))
  }

  /** Either template holds the title, the description, the skills line and the block. */
  lemma TemplateHolds(title: string, description: string, skills: string, block: string, count: nat)
    ensures var p := Template(title, description, skills, block, count);
      && Contains(p, title) && Contains(p, description) && Contains(p, skills) && Contains(p, block)
  {
    FillHolds(WordingFor(count), title, description, skills, block);
  }

  /** The prompt opens with the single-answer wording exactly when there is one pair, and
      with the interview wording otherwise. */
  lemma TemplateChoice(title: string, description: string, skills: string, block: string, count: nat)
    ensures var p := Template(title, description, skills, block, count);
      && (StartsWith(p, SingleOpening) <==> count == 1)
      && (StartsWith(p, MultiOpening) <==> count != 1)
  {
    var p := Template(title, description, skills, block, count);
    FillHolds(WordingFor(count), title, description, skills, block);
    assert SingleOpening[1] == 'A' && MultiOpening[1] == 'Y';
    if count == 1 {
      assert p[1] == 'A';
    } else {
      assert p[1] == 'Y';
    }
  }

  /** The interview template announces five questions whatever the number of pairs. */
  lemma InterviewTemplateSaysFive(title: string, description: string, skills: string, block: string, count: nat)
    requires count != 1
    ensures Contains(Template(title, description, skills, block, count), FiveQuestions)
  {
    FillHolds(MultiWording, title, description, skills, block);
    ContainsSelf(FiveQuestions);
    ContainsInConcat(MultiResponsesLead, FiveQuestions, MultiResponsesTail, FiveQuestions);
    ContainsTrans(Template(title, description, skills, block, count), MultiWording.responsesLabel, FiveQuestions);
  }

  // ---------------------------------------------------------------------------
  // The prompt
  // ---------------------------------------------------------------------------

  function JobTitle(d: Dict): Json {
    Get(d, "title", NotAvailable)
  }

  function JobDescription(d: Dict): Json {
    Get(d, "description", Str(""))
  }

  /** `", ".join(job.get('skills', []))`, or the TypeError it raises. */
  function SkillsLine(d: Dict): Result<string> {
    match JoinValue(", ", Get(d, "skills", Arr([])))
    case Some(line) => Ok(line)
    case None => Err(OtherError("can only join an iterable of str"))
  }

  /** `_create_feedback_generation_prompt(job, qa_pairs)`: the skills line is computed
      before the pairs are numbered, so its error wins. */
  function FeedbackPrompt(d: Dict, pairs: seq<Json>): Result<string> {
    match SkillsLine(d)
    case Err(e) => Err(e)
    case Ok(skills) =>
      match QaBlock(pairs)
      case Err(e) => Err(e)
      case Ok(block) => Ok(Template(Display(JobTitle(d)), Display(JobDescription(d)), skills, block, |pairs|))
  }

  /** The prompt can be built exactly when the skills join and every pair can; the
      skills error comes first; a built prompt holds the job's title, description and
      skills line and the numbered block, and takes the single-answer wording exactly
      when there is one pair. */
  lemma FeedbackPromptSpec(d: Dict, pairs: seq<Json>)
    ensures FeedbackPrompt(d, pairs).Ok? <==> SkillsLine(d).Ok? && QaBlock(pairs).Ok?
    ensures SkillsLine(d).Err? ==> FeedbackPrompt(d, pairs) == Err(SkillsLine(d).error)
    ensures FeedbackPrompt(d, pairs).Ok? ==>
      var p := FeedbackPrompt(d, pairs).value;
      && Contains(p, Display(JobTitle(d)))
      && Contains(p, Display(JobDescription(d)))
      && Contains(p, SkillsLine(d).value)
      && Contains(p, QaBlock(pairs).value)
      && (StartsWith(p, SingleOpening) <==> |pairs| == 1)
  {
    if FeedbackPrompt(d, pairs).Ok? {
      var title, description := Display(JobTitle(d)), Display(JobDescription(d));
      TemplateHolds(title, description, SkillsLine(d).value, QaBlock(pairs).value, |pairs|);
      TemplateChoice(title, description, SkillsLine(d).value, QaBlock(pairs).value, |pairs|);
    }
  }

  /** The loop of `_create_feedback_generation_prompt` that builds
      `questions_and_answers` with `+=` over `enumerate(qa_pairs)`. */
  method BuildQaBlock(pairs: seq<Json>) returns (r: Result<string>)
    ensures r == QaBlock(pairs)
  {
    ghost var results := QaEntries(pairs);
    ghost var done: seq<string> := [];
    var block := "";
    for i := 0 to |pairs|
      invariant Collect(results[..i]) == Ok(done)
      invariant block == Concat(done)
    {
      var entry := QaEntry(i, pairs[i]);
      if entry.Err? {
        CollectStopsAt(results, i);
        return Err(entry.error);
      }
      assert results[..i + 1][..i] == results[..i];
      ConcatSnoc(done + [entry.value], |done|);
      assert (done + [entry.value])[..|done|] == done;
      done := done + [entry.value];
      block := block + entry.value;
    }
    assert results[..|pairs|] == results;
    return Ok(block);
  }

  /** `_create_feedback_generation_prompt(job, qa_pairs)`. */
  method CreateFeedbackPrompt(d: Dict, pairs: seq<Json>) returns (r: Result<string>)
    ensures r == FeedbackPrompt(d, pairs)
  {
    var title := Display(JobTitle(d));
    var description := Display(JobDescription(d));
    var skills := SkillsLine(d);
    if skills.Err? {
      return Err(skills.error);
    }
    var block := BuildQaBlock(pairs);
    if block.Err? {
      return Err(block.error);
    }
    return Ok(Template(title, description, skills.value, block.value, |pairs|));
  }

  // ---------------------------------------------------------------------------
  // The reply and the service
  // ---------------------------------------------------------------------------

  /** `_parse_ai_feedback_response`: a dict whose only key, "feedback", holds the reply as
      it came. */
  function ParseFeedbackReply(reply: string): (r: Json)
    ensures r.Obj? && Keys(r.members) == ["feedback"]
    ensures Lookup(r.members, "feedback") == Some(Str(reply))
  {
    Obj([Member("feedback", Str(reply))])
  }

  /** The dict `generate_feedback_for_answers` returns. */
  datatype Feedback = Feedback(feedback: Json, jobTitle: Json)

  /** Both inputs pass the two checks at the top of the service. */
  predicate Validated(job: Json, qaPairs: Json) {
    IsNonEmptyDict(job) && IsNonEmptyList(qaPairs)
  }

  /** `generate_feedback_for_answers(job, qa_pairs)`, with the text generator as `llm`. A
      reply the check as written takes for a failure ends with 502; any other reply, the
      wrapper's reply to a model exception included, is returned as the feedback. */
  method GenerateFeedbackForAnswers(job: Json, qaPairs: Json, llm: string -> string)
    returns (r: Result<Feedback>)
    ensures !IsNonEmptyDict(job) ==> r == Err(ServiceError(InvalidJobMessage, 400))
    ensures IsNonEmptyDict(job) && !IsNonEmptyList(qaPairs) ==> r == Err(ServiceError(InvalidPairsMessage, 400))
    ensures Validated(job, qaPairs) && FeedbackPrompt(job.members, qaPairs.items).Err? ==>
      r == Err(ServiceError(FeedbackUnexpectedMessage, 500))
    ensures Validated(job, qaPairs) && FeedbackPrompt(job.members, qaPairs.items).Ok? ==>
      var reply := llm(FeedbackPrompt(job.members, qaPairs.items).value);
      && (IsFailureReplyAsWritten(reply) ==> r == Err(ServiceError(FeedbackFailedMessage, 502)))
      && (!IsFailureReplyAsWritten(reply) ==> r == Ok(Feedback(Str(reply), JobTitle(job.members))))
      && (forall message :: SlipsPastCheck(message) && reply == ExceptionReply(message) ==>
            r == Ok(Feedback(Str(ExceptionReply(message)), JobTitle(job.members))))
  {
    if !IsNonEmptyDict(job) {
      return Err(ServiceError(InvalidJobMessage, 400));
    }
    if !IsNonEmptyList(qaPairs) {
      return Err(ServiceError(InvalidPairsMessage, 400));
    }
    var title := JobTitle(job.members);
    var prompt := CreateFeedbackPrompt(job.members, qaPairs.items);
    if prompt.Err? {
      QaBlockSpec(qaPairs.items);
      return Err(Guarded(prompt.error, FeedbackUnexpectedMessage));
    }
    var reply := llm(prompt.value);
    forall message | SlipsPastCheck(message) && reply == ExceptionReply(message)
      ensures !IsFailureReplyAsWritten(reply)
    {
      SentinelMissesExceptionReply(message);
    }
    if IsFailureReplyAsWritten(reply) {
      return Err(ServiceError(FeedbackFailedMessage, 502));
    }
    var parsed := ParseFeedbackReply(reply);
    return Ok(Feedback(Lookup(parsed.members, "feedback").value, title));
  }
}
