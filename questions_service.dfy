/** The interview-question service: the question search with its result mapping, the
    skill-list cleaner, the prompt's context section, the two-stage reply parser and
    the validation, failure-reply and error-status logic of question generation. The
    store, the model wrapper and `json.loads` are inputs. */
module QuestionsService {
  import opened PyBuiltins
  import opened PyJson
  import opened SkillTokens
  import opened ServiceErrors
  import opened External

  // ---------------------------------------------------------------------------
  // The question search

  /** The text the store searches for: the query, then the skills when there are any. */
  function SearchPhrase(query: string, techSkills: seq<string>): string {
    if techSkills != [] then query + " " + Join(" ", techSkills) else query
  }

  /** The phrase begins with the query, is the bare query without skills, and holds
      every skill. */
  lemma SearchPhraseTerms(query: string, techSkills: seq<string>)
    ensures var p := SearchPhrase(query, techSkills);
      && StartsWith(p, query)
      && (techSkills == [] ==> p == query)
      && forall i :: 0 <= i < |techSkills| ==> Contains(p, techSkills[i])
  {
    var p := SearchPhrase(query, techSkills);
    if techSkills != [] {
      var joined := Join(" ", techSkills);
      assert p == query + (" " + joined);
      assert p[..|query|] == query;
      forall i | 0 <= i < |techSkills|
        ensures Contains(p, techSkills[i])
      {
        JoinContains(" ", techSkills, i);
        ContainsInConcat(query + " ", joined, "", techSkills[i]);
        assert query + " " + joined + "" == p;
      }
    } else {
      assert p[..|query|] == query;
    }
  }

  /** A question as the service returns it; each field is whatever the stored record holds. */
  datatype Question = Question(number: Json, question: Json, answer: Json, category: Json, difficulty: Json)

  /** One stored record as a question, each missing field `'N/A'`. */
  function MapQuestion(row: Dict): Question {
    Question(
      Get(row, "Question Number", NotAvailable),
      Get(row, "Question", NotAvailable),
      Get(row, "Answer", NotAvailable),
      Get(row, "Category", NotAvailable),
      Get(row, "Difficulty", NotAvailable))
  }

  lemma MapQuestionDefaults(row: Dict)
    ensures var q := MapQuestion(row);
      && FieldFrom(row, "Question Number", NotAvailable, q.number)
      && FieldFrom(row, "Question", NotAvailable, q.question)
      && FieldFrom(row, "Answer", NotAvailable, q.answer)
      && FieldFrom(row, "Category", NotAvailable, q.category)
      && FieldFrom(row, "Difficulty", NotAvailable, q.difficulty)
  {
  }

  /** One question per record, in the store's order. */
  function MapQuestions(rows: seq<Dict>): (r: seq<Question>)
    ensures |r| == |rows|
    ensures forall i :: 0 <= i < |rows| ==> r[i] == MapQuestion(rows[i])
  {
    seq(|rows|, i requires 0 <= i < |rows| => MapQuestion(rows[i]))
  }

  /** The dict `search_questions` returns; `message` is present only when nothing was found. */
  datatype QuestionSearch = QuestionSearch(questions: seq<Question>, total: int, message: Option<string>)

  const NoQuestionsPrefix := "No questions found for query: '"

  function NoQuestionsMessage(query: string): string {
    NoQuestionsPrefix + query + "'"
  }

  const SearchFailedMessage := "An error occurred while searching for questions."

  /** `search_questions`. `store` lists what the store returns for a search phrase and a
      limit. A failing store raises a `ServiceError` with status 500; no records give an
      empty result with a message; otherwise every record is mapped and counted. */
  function SearchQuestions(query: string, techSkills: seq<string>, limit: int, store: (string, int) -> Cursor)
    : Result<QuestionSearch>
  {
    match store(SearchPhrase(query, techSkills), limit)
    case StoreError(_) => Err(ServiceError(SearchFailedMessage, 500))
    case Rows(rows) =>
      if rows == [] then Ok(QuestionSearch([], 0, Some(NoQuestionsMessage(query))))
      else Ok(QuestionSearch(MapQuestions(rows), |rows|, None))
  }

  /** A failing store makes the search raise a `ServiceError` with status 500; no records
      give an empty result with the not-found message; otherwise the result holds one
      mapped question per record, in order, and counts them. */
  lemma SearchQuestionsSpec(query: string, techSkills: seq<string>, limit: int, store: (string, int) -> Cursor)
    ensures var r := SearchQuestions(query, techSkills, limit, store);
      var cursor := store(SearchPhrase(query, techSkills), limit);
      && (r.Err? <==> cursor.StoreError?)
      && (r.Err? ==> r.error == ServiceError(SearchFailedMessage, 500))
      && (r.Ok? ==> r.value.total == |r.value.questions| == |cursor.rows|)
      && (r.Ok? ==> r.value.questions == MapQuestions(cursor.rows))
      && (r.Ok? ==> (r.value.message.Some? <==> r.value.questions == []))
      && (r.Ok? && r.value.message.Some? ==> r.value.message.value == NoQuestionsMessage(query))
  {
  }

  // ---------------------------------------------------------------------------
  // The skill-list cleaner

  /** The strings among `items`, in order. */
  function TextItems(items: seq<Json>): (r: seq<string>)
    ensures |r| <= |items|
  {
    if items == [] then []
    else (if items[0].Str? then [items[0].s] else []) + TextItems(items[1..])
  }

  lemma {:induction false} TextItemsMembership(items: seq<Json>, t: string)
    ensures t in TextItems(items) <==> Str(t) in items
  {
    if items != [] {
      TextItemsMembership(items[1..], t);
      assert items == [items[0]] + items[1..];
    }
  }

  lemma {:induction false} TextItemsAppend(a: seq<Json>, b: seq<Json>)
    ensures TextItems(a + b) == TextItems(a) + TextItems(b)
  {
    if a == [] {
      assert a + b == b;
    } else {
      var head := if a[0].Str? then [a[0].s] else [];
      assert (a + b)[0] == a[0];
      assert (a + b)[1..] == a[1..] + b;
      TextItemsAppend(a[1..], b);
      assert head + (TextItems(a[1..]) + TextItems(b)) == (head + TextItems(a[1..])) + TextItems(b);
    }
  }

  const NotIterableSuffix := "' object is not iterable"

  /** The message of the `TypeError` iterating over a number or a boolean raises. */
  function NotIterableMessage(v: Json): string {
    "'" + TypeName(v) + NotIterableSuffix
  }

  /** `parse_tech_skills(v)`: nothing for a falsy value; otherwise the stripped string
      items that are longer than one character once stripped, in order, at most ten;
      iterating over a value that cannot be iterated raises. */
  function ParseTechSkills(v: Json): Result<seq<string>> {
    if !Truthy(v) then Ok([])
    else
      match Iterate(v)
      case None => Err(OtherError(NotIterableMessage(v)))
      case Some(items) => Ok(Prefix(CleanTokens(TextItems(items)), MaxSkills))
  }

  /** The cleaner's contract: the error and empty cases exactly, and otherwise at most ten
      skills, each stripped and longer than one character, the first ones of the cleaned
      string items, each of which comes from a string item of the input. */
  lemma ParseTechSkillsSpec(v: Json)
    ensures var r := ParseTechSkills(v);
      && (!Truthy(v) ==> r == Ok([]))
      && (r.Err? <==> Truthy(v) && (v.Bool? || v.Num?))
      && (r.Err? ==> r.error == OtherError(NotIterableMessage(v)))
      && (r.Ok? && Truthy(v) ==>
            var all := CleanTokens(TextItems(Iterate(v).value));
            && |r.value| == (if |all| < MaxSkills then |all| else MaxSkills)
            && r.value == all[..|r.value|])
      && (r.Ok? ==> |r.value| <= MaxSkills && forall i :: 0 <= i < |r.value| ==> IsSkill(r.value[i]))
  {
  }

  /** A cleaned skill is the stripped form of a string item of the input, and every
      string item that is long enough once stripped gives one. */
  lemma CleanedSkillOrigin(items: seq<Json>, t: string)
    ensures t in CleanTokens(TextItems(items)) <==> exists s :: Str(s) in items && KeptAs(s, t)
  {
    var texts := TextItems(items);
    CleanTokensMembership(texts, t);
    if t in CleanTokens(texts) {
      var i :| 0 <= i < |texts| && KeptAs(texts[i], t);
      TextItemsMembership(items, texts[i]);
    }
    if exists s :: Str(s) in items && KeptAs(s, t) {
      var s :| Str(s) in items && KeptAs(s, t);
      TextItemsMembership(items, s);
      var i :| 0 <= i < |texts| && texts[i] == s;
    }
  }

  /** A string is iterated character by character, so it never yields a skill. */
  lemma {:induction false} StringGivesNoSkills(s: string)
    ensures ParseTechSkills(Str(s)) == Ok([])
  {
    if s != "" {
      var items := Iterate(Str(s)).value;
      TextItemsOfChars(items);
      CleanTokensOfShort(TextItems(items));
    }
  }

  lemma {:induction false} TextItemsOfChars(items: seq<Json>)
    requires forall i :: 0 <= i < |items| ==> items[i].Str? && |items[i].s| == 1
    ensures forall i :: 0 <= i < |TextItems(items)| ==> |TextItems(items)[i]| == 1
  {
    if items != [] {
      assert forall i :: 0 <= i < |items[1..]| ==> items[1..][i] == items[i + 1];
      TextItemsOfChars(items[1..]);
    }
  }

  /** A dict is iterated over its keys, so its keys are cleaned like a list of strings. */
  lemma DictGivesItsKeys(members: seq<Member>)
    requires members != []
    ensures ParseTechSkills(Obj(members)) == Ok(Prefix(CleanTokens(Keys(members)), MaxSkills))
  {
    KeyItems(members);
  }

  lemma {:induction false} KeyItems(members: seq<Member>)
    ensures TextItems(seq(|members|, i requires 0 <= i < |members| => Str(members[i].key))) == Keys(members)
  {
    var items := seq(|members|, i requires 0 <= i < |members| => Str(members[i].key));
    if members != [] {
      var rest := members[1..];
      KeyItems(rest);
      assert items[1..] == seq(|rest|, i requires 0 <= i < |rest| => Str(rest[i].key));
      assert Keys(members) == [members[0].key] + Keys(rest);
    }
  }

  // ---------------------------------------------------------------------------
  // The prompt

  const ContextHeader := "For context, here are some existing questions and answers that might be relevant. "
    + "Use them to understand the style, format, and difficulty, but generate NEW and UNIQUE questions:\n"

  const QuestionLabel := "- Question: "
  const AnswerLabel := "\n- Answer: "
  const EntryEnd := "\n\n"

  /** One context question and its answer, as the f-string renders them. */
  function ContextEntry(q: Question): string {
    Concat([QuestionLabel, Display(q.question), AnswerLabel, Display(q.answer), EntryEnd])
  }

  /** One entry per context question, in order. */
  function ContextEntries(qs: seq<Question>): (r: seq<string>)
    ensures |r| == |qs|
    ensures forall i :: 0 <= i < |qs| ==> r[i] == ContextEntry(qs[i])
  {
    seq(|qs|, i requires 0 <= i < |qs| => ContextEntry(qs[i]))
  }

  /** The context section of the prompt: nothing without context questions, otherwise the
      header followed by the entries. */
  function ContextSection(qs: seq<Question>): string {
    if qs == [] then "" else ContextHeader + Concat(ContextEntries(qs))
  }

  /** The context section is empty exactly when there are no context questions. */
  lemma ContextSectionEmpty(qs: seq<Question>)
    ensures ContextSection(qs) == "" <==> qs == []
  {
    assert |ContextHeader| > 0;
  }

  /** Builds the context section by appending one entry per question. */
  method BuildContextSection(qs: seq<Question>) returns (section: string)
    ensures section == ContextSection(qs)
  {
    section := "";
    if qs != [] {
      ghost var entries := ContextEntries(qs);
      section := ContextHeader;
      for i := 0 to |qs|
        invariant section == ContextHeader + Concat(entries[..i])
      {
        ConcatSnoc(entries, i);
        section := section + ContextEntry(qs[i]);
      }
      assert entries[..|qs|] == entries;
    }
  }

  const PromptOpening := "\nBased on the following job profile, please generate exactly 5 high-quality "
    + "technical interview questions.\nThe questions should be suitable for a candidate applying for the role of \""
  const PromptDetails := "\".\n\n**Job Details:**\n- **Title:** "
  const PromptDescription := "\n- **Description:** "
  const PromptSkills := "\n- **Key Skills:** "
  const PromptContext := "\n\n"
  const PromptInstructions := "\n\n**Instructions:**\n"
    + "1.  Generate **exactly 5** technical questions.\n"
    + "2.  The questions must be directly relevant to the job's key skills and description.\n"
    + "3.  Return **ONLY** a valid JSON array of strings, where each string is a question.\n"
    + "4.  **DO NOT** include answers, numbering, or any other text outside of the JSON array.\n\n"
    + "Example format:\n[\n"
    + "    \"Can you explain the difference between a deep copy and a shallow copy in Python?\",\n"
    + "    \"Describe a time you had to optimize a slow database query.\"\n]\n"

  /** The pieces of `_create_question_generation_prompt`'s f-string, given the context
      section. */
  function QuestionPromptParts(title: Json, description: Json, skills: seq<string>, context: string): seq<string> {
    [PromptOpening, Display(title), PromptDetails, Display(title), PromptDescription, Display(description),
     PromptSkills, Join(", ", skills), PromptContext, context, PromptInstructions]
  }

  /** `_create_question_generation_prompt`, given the context section. */
  function QuestionPrompt(title: Json, description: Json, skills: seq<string>, context: string): string {
    Concat(QuestionPromptParts(title, description, skills, context))
  }

  /** The prompt holds the job's title, description and skills and the context section. */
  lemma QuestionPromptHolds(title: Json, description: Json, skills: seq<string>, context: string)
    ensures var p := QuestionPrompt(title, description, skills, context);
      && Contains(p, Display(title))
      && Contains(p, Display(description))
      && Contains(p, Join(", ", skills))
      && Contains(p, context)
  {
    var parts := QuestionPromptParts(title, description, skills, context);
    ConcatContains(parts, 1);
    ConcatContains(parts, 5);
    ConcatContains(parts, 7);
    ConcatContains(parts, 9);
  }

  // ---------------------------------------------------------------------------
  // The reply parser

  const FenceMarker := "```"

  /** Line `line` of a reply is kept, as `t`. */
  predicate LineKeptAs(line: string, t: string) {
    t != "" && Strip(line) == t && !StartsWith(line, FenceMarker)
  }

  /** `[line.strip() for line in lines if line.strip() and not line.startswith("```")]`. */
  function KeepLines(lines: seq<string>): (r: seq<string>)
    ensures |r| <= |lines|
  {
    if lines == [] then []
    else
      var head := if Strip(lines[0]) != "" && !StartsWith(lines[0], FenceMarker) then [Strip(lines[0])] else [];
      head + KeepLines(lines[1..])
  }

  lemma {:induction false} KeepLinesMembership(lines: seq<string>, t: string)
    ensures t in KeepLines(lines) <==> exists i :: 0 <= i < |lines| && LineKeptAs(lines[i], t)
  {
    if lines != [] {
      var rest := lines[1..];
      KeepLinesMembership(rest, t);
      var head := if Strip(lines[0]) != "" && !StartsWith(lines[0], FenceMarker) then [Strip(lines[0])] else [];
      assert KeepLines(lines) == head + KeepLines(rest);
      assert t in head <==> LineKeptAs(lines[0], t);
      assert forall i :: 1 <= i < |lines| ==> lines[i] == rest[i - 1];
      if exists i :: 0 <= i < |lines| && LineKeptAs(lines[i], t) {
        var i :| 0 <= i < |lines| && LineKeptAs(lines[i], t);
        assert i == 0 || LineKeptAs(rest[i - 1], t);
      }
    }
  }

  lemma {:induction false} KeepLinesAppend(a: seq<string>, b: seq<string>)
    ensures KeepLines(a + b) == KeepLines(a) + KeepLines(b)
  {
    if a == [] {
      assert a + b == b;
    } else {
      var head := if Strip(a[0]) != "" && !StartsWith(a[0], FenceMarker) then [Strip(a[0])] else [];
      assert (a + b)[0] == a[0];
      assert (a + b)[1..] == a[1..] + b;
      KeepLinesAppend(a[1..], b);
      assert head + (KeepLines(a[1..]) + KeepLines(b)) == (head + KeepLines(a[1..])) + KeepLines(b);
    }
  }

  lemma {:induction false} KeepLinesShape(lines: seq<string>)
    requires forall i :: 0 <= i < |lines| ==> NoneOf(lines[i], {'\n'})
    ensures forall i :: 0 <= i < |KeepLines(lines)| ==>
      KeepLines(lines)[i] != "" && IsStripped(KeepLines(lines)[i]) && NoneOf(KeepLines(lines)[i], {'\n'})
  {
    if lines != [] {
      var rest := lines[1..];
      assert forall i :: 0 <= i < |rest| ==> rest[i] == lines[i + 1];
      KeepLinesShape(rest);
      StripNoneOf(lines[0], {'\n'});
    }
  }

  /** The plain-text fallback: the stripped non-empty lines of the reply, in order, except
      those that begin with a code fence. */
  function ReplyLines(reply: string): seq<string> {
    KeepLines(Split(reply, {'\n'}))
  }

  /** Every fallback question is a non-empty stripped line of the reply. */
  lemma ReplyLinesShape(reply: string)
    ensures forall i :: 0 <= i < |ReplyLines(reply)| ==>
      var t := ReplyLines(reply)[i]; t != "" && IsStripped(t) && NoneOf(t, {'\n'})
  {
    SplitNoneOf(reply, {'\n'});
    KeepLinesShape(Split(reply, {'\n'}));
  }

  /** `_parse_ai_question_response`, given what `json.loads` does on the bracket slice. An
      empty slice (a `]` only before the first `[`) is not valid JSON and takes the same
      fallback as a reply without brackets. */
  function ParseQuestionReply(reply: string, decode: string -> Decoded): seq<string> {
    match BracketSlice(reply)
    case None => ReplyLines(reply)
    case Some(text) =>
      match decode(text)
      case DecodeError => ReplyLines(reply)
      case DecodeCrash => []
      case Value(v) => if v.Arr? && AllTexts(v.items).Some? then AllTexts(v.items).value else []
  }

  /** A list of strings decodes back to itself. */
  lemma {:induction false} AllTextsStrList(xs: seq<string>)
    ensures AllTexts(StrList(xs).items) == Some(xs)
  {
    if xs != [] {
      var items := StrList(xs).items;
      AllTextsStrList(xs[1..]);
      assert items[1..] == StrList(xs[1..]).items;
      assert items[0] == Str(xs[0]);
      assert xs == [xs[0]] + xs[1..];
    }
  }

  /** The parser's four outcomes: without a `[` before a `]` and on a decode error, the
      fallback lines; a decoded list of strings, returned as it is; any other decoded value,
      and any other exception, nothing. */
  lemma ParseQuestionReplyCases(reply: string, decode: string -> Decoded)
    ensures var r := ParseQuestionReply(reply, decode);
      var slice := BracketSlice(reply);
      && ((!exists i, j :: 0 <= i < j < |reply| && reply[i] == '[' && reply[j] == ']') ==> r == ReplyLines(reply))
      && (slice.Some? && decode(slice.value).DecodeError? ==> r == ReplyLines(reply))
      && (forall qs :: slice.Some? && decode(slice.value) == Value(StrList(qs)) ==> r == qs)
      && (slice.Some? && decode(slice.value).Value? && !IsTextList(decode(slice.value).value) ==> r == [])
      && (slice.Some? && decode(slice.value).DecodeCrash? ==> r == [])
  {
    BracketSliceSpec(reply);
    forall qs | BracketSlice(reply).Some? && decode(BracketSlice(reply).value) == Value(StrList(qs))
      ensures ParseQuestionReply(reply, decode) == qs
    {
      AllTextsStrList(qs);
    }
  }

  /** The wrapper's reply to an exception with a one-line message that has no `[` and
      does not end in whitespace is taken, by the line fallback, as a single question. */
  lemma ExceptionReplyBecomesQuestion(message: string, decode: string -> Decoded)
    requires OneLineMessage(message)
    ensures ParseQuestionReply(ExceptionReply(message), decode) == [ExceptionReply(message)]
  {
    var s := ExceptionReply(message);
    ExceptionReplyOneLine(message);
    assert BracketSlice(s).None?;
    SplitOfNoneOf(s, {'\n'});
    StripOfStripped(s);
    assert !StartsWith(s, FenceMarker) by {
      assert FenceMarker[0] == '`';
    }
    assert ReplyLines(s) == [s] + KeepLines([]);
  }

  /** A list whose items are all strings. */
  predicate IsTextList(v: Json) {
    v.Arr? && AllTexts(v.items).Some?
  }

  // ---------------------------------------------------------------------------
  // Question generation

  /** The dict `generate_interview_questions` returns. */
  datatype GeneratedQuestions = GeneratedQuestions(questions: seq<string>, total: int, jobTitle: Json, techSkills: seq<string>)

  const InvalidJobMessage := "Invalid job object provided."
  const QuestionsFailedMessage := "Failed to generate questions from AI service."
  const QuestionsUnexpectedMessage := "An unexpected error occurred while generating questions."

  /** How many stored questions are fetched as context. */
  const ContextLimit := 5

  function JobTitle(d: Dict): Json {
    Get(d, "title", NotAvailable)
  }

  function JobDescription(d: Dict): Json {
    Get(d, "description", Str(""))
  }

  function JobSkills(d: Dict): Result<seq<string>> {
    ParseTechSkills(Get(d, "skills", Arr([])))
  }

  /** The non-empty strings of `xs`, in order: `filter(None, xs)` on strings. */
  function NonEmptyTexts(xs: seq<string>): (r: seq<string>)
    ensures |r| <= |xs|
  {
    if xs == [] then [] else (if xs[0] != "" then [xs[0]] else []) + NonEmptyTexts(xs[1..])
  }

  lemma {:induction false} NonEmptyTextsOfSkills(xs: seq<string>)
    requires forall i :: 0 <= i < |xs| ==> IsSkill(xs[i])
    ensures NonEmptyTexts(xs) == xs
  {
    if xs != [] {
      assert forall i :: 0 <= i < |xs[1..]| ==> xs[1..][i] == xs[i + 1];
      NonEmptyTextsOfSkills(xs[1..]);
      assert IsSkill(xs[0]) && xs[0] != "";
      assert NonEmptyTexts(xs) == [xs[0]] + NonEmptyTexts(xs[1..]);
      assert xs == [xs[0]] + xs[1..];
    }
  }

  const NotAStrInstanceInfix := "sequence item 0: expected str instance, "

  /** `' '.join(filter(None, [title] + skills))`: a falsy title is dropped, a string title
      leads, and any other title makes `join` raise. */
  function GroundingQuery(title: Json, skills: seq<string>): Result<string> {
    if !Truthy(title) then Ok(Join(" ", NonEmptyTexts(skills)))
    else if title.Str? then Ok(Join(" ", [title.s] + NonEmptyTexts(skills)))
    else Err(OtherError(NotAStrInstanceInfix + TypeName(title) + " found"))
  }

  /** For parsed skills the query is the string title, if there is one, then every skill. */
  lemma GroundingQueryTerms(title: Json, skills: seq<string>)
    requires forall i :: 0 <= i < |skills| ==> IsSkill(skills[i])
    ensures var g := GroundingQuery(title, skills);
      && (g.Ok? <==> !Truthy(title) || title.Str?)
      && (!Truthy(title) ==> g == Ok(Join(" ", skills)))
      && (Truthy(title) && title.Str? ==> g == Ok(Join(" ", [title.s] + skills)))
  {
    NonEmptyTextsOfSkills(skills);
  }

  /** The job is a non-empty dict whose skills parse. */
  predicate SkillsParsed(job: Json) {
    IsNonEmptyDict(job) && JobSkills(job.members).Ok?
  }

  function Skills(job: Json): seq<string>
    requires SkillsParsed(job)
  {
    JobSkills(job.members).value
  }

  /** ... and its title can be joined with its skills into the grounding query. */
  predicate QueryBuilt(job: Json) {
    SkillsParsed(job) && GroundingQuery(JobTitle(job.members), Skills(job)).Ok?
  }

  /** The phrase the context search hands to the store. */
  function ContextPhrase(job: Json): string
    requires QueryBuilt(job)
  {
    SearchPhrase(GroundingQuery(JobTitle(job.members), Skills(job)).value, Skills(job))
  }

  /** ... and the store answers the context search. */
  predicate ReachesModel(job: Json, store: (string, int) -> Cursor) {
    QueryBuilt(job) && store(ContextPhrase(job), ContextLimit).Rows?
  }

  /** The prompt of a generation that gets as far as the model. */
  function PromptFor(job: Json, store: (string, int) -> Cursor): string
    requires ReachesModel(job, store)
  {
    var d := job.members;
    var rows := store(ContextPhrase(job), ContextLimit).rows;
    QuestionPrompt(JobTitle(d), JobDescription(d), Skills(job), ContextSection(MapQuestions(rows)))
  }

  /** `generate_interview_questions(job)`. `store` answers the context search, `llm` is
      the wrapper (prompt to reply) and `decode` is `json.loads`. A bad job is refused with
      400 before the store or the model is asked; skills that cannot be iterated raise
      the parser's own error, which no handler sees; a title `join` cannot take, or a
      failing search, ends with a `ServiceError` of status 500; a reply the check as written
      takes for a failure with 502 (the reply to a model exception usually slips through);
      otherwise the parsed questions are returned and counted. */
  method GenerateInterviewQuestions(
    job: Json, store: (string, int) -> Cursor, llm: string -> string, decode: string -> Decoded)
    returns (r: Result<GeneratedQuestions>)
    ensures !IsNonEmptyDict(job) ==> r == Err(ServiceError(InvalidJobMessage, 400))
    ensures IsNonEmptyDict(job) && !SkillsParsed(job) ==> r == Err(JobSkills(job.members).error)
    ensures SkillsParsed(job) && !QueryBuilt(job) ==> r == Err(ServiceError(QuestionsUnexpectedMessage, 500))
    ensures QueryBuilt(job) && !ReachesModel(job, store) ==> r == Err(ServiceError(SearchFailedMessage, 500))
    ensures ReachesModel(job, store) && IsFailureReplyAsWritten(llm(PromptFor(job, store))) ==>
      r == Err(ServiceError(QuestionsFailedMessage, 502))
    ensures ReachesModel(job, store) && !IsFailureReplyAsWritten(llm(PromptFor(job, store))) ==>
      && r.Ok?
      && r.value.questions == ParseQuestionReply(llm(PromptFor(job, store)), decode)
      && r.value.total == |r.value.questions|
      && r.value.jobTitle == Get(job.members, "title", NotAvailable)
      && r.value.techSkills == Skills(job)
    ensures ReachesModel(job, store) ==> forall message ::
      SlipsPastCheck(message) && llm(PromptFor(job, store)) == ExceptionReply(message) ==>
        && r.Ok?
        && (OneLineMessage(message) ==> r.value.questions == [ExceptionReply(message)] && r.value.total == 1)
  {
    if !IsNonEmptyDict(job) {
      return Err(ServiceError(InvalidJobMessage, 400));
    }
    var d := job.members;
    var title := JobTitle(d);
    var description := JobDescription(d);
    var parsed := ParseTechSkills(Get(d, "skills", Arr([])));
    if parsed.Err? {
      return Err(parsed.error);
    }
    var skills := parsed.value;
    var query := GroundingQuery(title, skills);
    if query.Err? {
      return Err(Guarded(query.error, QuestionsUnexpectedMessage));
    }
    var found := SearchQuestions(query.value, skills, ContextLimit, store);
    SearchQuestionsSpec(query.value, skills, ContextLimit, store);
    if found.Err? {
      return Err(Guarded(found.error, QuestionsUnexpectedMessage));
    }
    var context := BuildContextSection(found.value.questions);
    var reply := llm(QuestionPrompt(title, description, skills, context));
    forall message | SlipsPastCheck(message) && reply == ExceptionReply(message)
      ensures !IsFailureReplyAsWritten(reply)
      ensures OneLineMessage(message) ==> ParseQuestionReply(reply, decode) == [reply]
    {
      SentinelMissesExceptionReply(message);
      if OneLineMessage(message) {
        ExceptionReplyBecomesQuestion(message, decode);
      }
    }
    if IsFailureReplyAsWritten(reply) {
      return Err(ServiceError(QuestionsFailedMessage, 502));
    }
    var questions := ParseQuestionReply(reply, decode);
    return Ok(GeneratedQuestions(questions, |questions|, title, skills));
  }
}
