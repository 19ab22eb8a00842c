# Interview-prep backend: the service layer in Dafny

This project models the service layer of a small Flask backend that helps candidates prepare
for job interviews. The backend has three services:

- **Job search** (`app/services/job_service.py`):
  - builds a MongoDB filter from a query, an optional job level and optional skills;
  - formats the rows the store returns, giving each row a generated description;
  - when the store finds nothing, asks a text generator for job listings, parses them and falls
    back to a single default job.
- **Interview questions** (`app/services/questions_service.py`):
  - cleans the job's skills and looks up stored questions as context;
  - builds a prompt around them and sends it to the generator;
  - parses the reply as a JSON array of strings, or as plain lines when it is not one.
- **Feedback** (`app/services/feedback_service.py`):
  - validates the job and the question/answer pairs;
  - numbers the pairs into a block and wraps it in one of two templates (one answer, or a
    whole interview);
  - returns the generator's reply unchanged, together with the job title.

Errors follow `ServiceError(message, status_code=500)` (`app/services/exceptions.py`). Any other
exception is a generic 500.

Modules:

| module | file | what it holds |
|---|---|---|
| `PyBuiltins` | py_builtins.dfy | `str.strip`, `re.split` on a character class, `str.join`, `find`/`rfind`, slicing, `in` on strings, `str(int)` |
| `PyJson` | py_json.dfy | Python values as JSON values: truthiness, `dict.get` (the first key wins), iteration, `str()`/`repr()`, `sep.join(value)` |
| `PyRegex` | py_regex.dfy | `re.escape` (Python 3.7 and later), its inverse, and the alternatives of a `\|`-joined pattern |
| `ServiceErrors` | service_errors.dfy | raised errors, the `except ServiceError: raise / except Exception` guard, and running steps until one raises |
| `External` | external.dfy | the document store's cursor, the outcome of `json.loads`, the generator wrapper's fixed failure replies, the failure check, and the `[`…`]` slice handed to `json.loads` |
| `SkillTokens` | skill_tokens.dfy | the shared "strip, keep if longer than one character, at most 10" cleaner |
| `JobService` | job_service.dfy | `_build_search_query`, `parse_skills`, `_format_job_results`, `search_jobs`, `generate_enhanced_job_listings` |
| `QuestionsService` | questions_service.dfy | `search_questions`, `parse_tech_skills`, `generate_interview_questions`, `_create_question_generation_prompt`, `_parse_ai_question_response` |
| `FeedbackService` | feedback_service.dfy | `generate_feedback_for_answers`, `_create_feedback_generation_prompt`, `_parse_ai_feedback_response` |

Whatever lies outside the program is a parameter:

- **The document store** maps a filter (or a search phrase) and a limit to the rows it returns,
  already sorted by text score, or to an error message mid-query.
- **The text generator** maps a prompt to the reply of `generate_llm_response`. For a job
  description it is `describe(i)`, the reply for row `i`. For the listing prompt it is the one
  reply string.
- **`json.loads`** maps a text to a value, a `JSONDecodeError`, or another exception.
- **Today's date** is the string `today`.

The loops of the source are methods, each with a `for` or `while` loop, ensuring the result equals a
specification function:

- `_format_job_results` is `FormatJobResults`.
- The cleanup loop of `generate_enhanced_job_listings` is `CleanListings`.
- The context loop of `_create_question_generation_prompt` is `BuildContextSection`.
- The Q&A loop of `_create_feedback_generation_prompt` is `BuildQaBlock`.

The two generation services are methods that follow the source step by step, the failure
check on the generator's reply included, as written. Their `ensures` name every outcome:
each error with its status code, and the success value. The corrected failure check is
modelled beside them (see Findings).

## Model

| member | source | states |
|---|---|---|
| PyBuiltins.StripSpec | app/services/job_service.py:151-152 | `s.strip()` is the middle of `s` once a leading and a trailing run of whitespace are removed; it is empty exactly when `s` is all whitespace |
| PyBuiltins.StripIdempotent | app/services/job_service.py:151-152 | stripping a stripped token changes nothing |
| PyBuiltins.SplitRoundTrip | app/services/job_service.py:150 | `re.split(r'[,;\|]', s)` gives one piece more than `s` has separators, and interleaving the pieces with those separators gives `s` back |
| PyBuiltins.SplitNoneOf | app/services/job_service.py:150 | no piece of the split contains a separator |
| PyBuiltins.SplitOfNoneOf | app/services/questions_service.py:180-181 | a string without separators splits into the one-piece list of itself |
| PyBuiltins.Find | app/services/job_service.py:191 | `s.find(c)` is -1 exactly when `c` is absent, otherwise the index of the first `c` |
| PyBuiltins.RFind | app/services/job_service.py:192 | `s.rfind(c)` is -1 exactly when `c` is absent, otherwise the index of the last `c` |
| PyBuiltins.Prefix | app/services/job_service.py:153 | `xs[:n]` is a prefix of `xs` of length `min(n, len(xs))`, or `len(xs) + n` floored at 0 for a negative `n` |
| PyJson.LookupSpec | app/services/job_service.py:71-76 | `d.get(key)` finds a value exactly when some member has the key, and then it is the value of the first such member |
| PyJson.AllTexts | app/services/questions_service.py:187-188 | a list counts as a list of strings exactly when every item is a `str`, and its texts are the items in order |
| PyJson.Iterate | app/services/questions_service.py:76-77 | iterating raises exactly for `None`, a bool or a number |
| PyJson.JoinValue | app/services/feedback_service.py:56 | `sep.join(v)` succeeds exactly when `v` can be iterated and yields only strings |
| PyRegex.UnescapeEscape | app/services/job_service.py:31 | `re.escape` loses nothing: unescaping its result gives the input back |
| PyRegex.AlternativesAfterEscape | app/services/job_service.py:31 | an escaped text holds no unescaped `\|`, so it stays whole within the first alternative of any pattern it begins |
| PyRegex.JoinedEscapesAlternatives | app/services/job_service.py:31 | the alternatives of `"\|".join(re.escape(s) for s in skills)` are exactly the escaped skills in input order, and each one unescapes to its skill |
| ServiceErrors.Guarded | app/services/questions_service.py:123-129 | a `ServiceError` leaves the guarded block unchanged; any other exception leaves it as a `ServiceError` with the given message and status 500 |
| ServiceErrors.CollectSpec | app/services/job_service.py:68-94 | running one step per item succeeds exactly when every step does, giving one value per item in order; otherwise it gives the error of the first step that raised |
| ServiceErrors.CollectStopsAt | app/services/job_service.py:70-92 | once a step raises, the steps after it do not change the outcome |
| External.ExceptionReplyColon | app/services/ai_service.py:47 | in the wrapper's exception reply for a message without `:`, the only `:` is the one after "Error generating response" |
| External.SentinelMissesExceptionReply | app/services/questions_service.py:110 | the services' failure check, as written, lets the wrapper's exception reply through for every message without `:` or `U` |
| External.SentinelMissesQuotaFailure | app/services/feedback_service.py:30 | the as-written check does not flag `"Error generating response: quota exceeded"` |
| External.WrapperFailuresRecognised | app/services/ai_service.py:31-47 | the corrected check flags all three failure replies of the wrapper: initialisation failure, empty response, exception |
| External.FailureCheckExtendsAsWritten | app/services/questions_service.py:110 | every reply the as-written check flags is flagged by the corrected one too |
| External.BracketSliceSpec | app/services/job_service.py:191-194 | a slice exists exactly when some `[` comes before some `]`; it then runs from the first `[` of the reply to its last `]`, both included |
| External.ExceptionReplyOneLine | app/services/ai_service.py:47 | the wrapper's reply to an exception whose message is one line without `[` and ends in a non-space is itself one stripped line without `[` |
| SkillTokens.CleanTokens | app/services/job_service.py:151-152 | the cleaner keeps at most as many tokens as it is given, and each kept token is stripped and longer than one character |
| SkillTokens.CleanTokensAppend | app/services/job_service.py:151-152 | cleaning works token by token: cleaning a concatenation concatenates the cleaned parts, so input order is kept |
| SkillTokens.CleanTokensMembership | app/services/job_service.py:151-152 | `t` is kept exactly when some token strips to `t` and `t` is longer than one character |
| SkillTokens.CleanTokensNoneOf | app/services/job_service.py:150-152 | cleaning never introduces a character that no token had |
| SkillTokens.CleanTokensOfShort | app/services/job_service.py:152 | tokens of at most one character are all dropped |
| JobService.BuildSearchQuery | app/services/job_service.py:20-36 | the loop-free builder produces the search filter of the query |
| JobService.SearchFilterShape | app/services/job_service.py:25-36 | the filter is the bare text condition exactly when there is neither a level nor a skill; otherwise an `$and` list of one condition per given input and no other, with the text condition first, the level condition second when a level is given, and the skills condition last when skills are given; each optional condition is present exactly when its input is truthy |
| JobService.SkillsPatternAlternatives | app/services/job_service.py:30-31 | the skills regex has exactly the escaped skills as its alternatives, in input order, and each unescapes to its skill |
| JobService.ParseSkillsSpec | app/services/job_service.py:146-153 | `parse_skills` gives `[]` for an empty string; otherwise it gives the first `min(n, 10)` of the `n` cleaned pieces of the split, in order, each stripped, longer than one character and free of `,`, `;` and `\|` |
| JobService.SkillsField | app/services/job_service.py:74 | a falsy `job_skills` gives no skills, a string gives `parse_skills` of it, and any other truthy value raises the `TypeError` of `re.split` |
| JobService.FormatRowFields | app/services/job_service.py:70-92 | a row fails exactly when its skills fail; otherwise every field comes from the row or takes its default (`'N/A'`, the LinkedIn search link, today), skills are the parsed list and the description is the stripped generated reply |
| JobService.FormatJobResults | app/services/job_service.py:66-94 | the loop returns the row-by-row formatting of the rows, stopping at the first row that raises |
| JobService.FormattedRows | app/services/job_service.py:66-94 | formatting gives exactly one job per row in row order, or the first failing row's error |
| JobService.CleanJob | app/services/job_service.py:224 | a cleaned listing always links to the generated-jobs page |
| JobService.CleanJobDefaults | app/services/job_service.py:202-227 | each field of a cleaned listing comes from the parsed dict or takes its default built from the query, the skills, the level and today |
| JobService.CleanJobs | app/services/job_service.py:199-228 | cleanup gives at most one job per item, each linking to the generated-jobs page |
| JobService.CleanJobsAppend | app/services/job_service.py:199-228 | cleanup works item by item in order: cleaning a concatenation concatenates the cleaned parts |
| JobService.CleanJobsFromDicts | app/services/job_service.py:200-201 | every cleaned job comes from a dict item, and the result is empty exactly when no item is a dict |
| JobService.CleanListings | app/services/job_service.py:199-229 | the cleanup loop returns the cleanup of the items |
| JobService.GenerateEnhancedJobListings | app/services/job_service.py:156-246 | the method returns the listing outcome for the reply: parsed and cleaned jobs, or the fallback job |
| JobService.ListingsLinkForced | app/services/job_service.py:224 | every generated listing, parsed or fallback, links to the generated-jobs page |
| JobService.ParsedListings | app/services/job_service.py:191-229 | when the slice decodes to a list, the result has at most `limit` jobs, each cleaned from a dict among the first `limit` items, and it is empty exactly when none of those is a dict |
| JobService.FallbackListing | app/services/job_service.py:230-246 | when there is no slice or it does not decode, the result is one fallback job titled "Fallback: \<query\> position", with the given skills (or `[query]`) and the given level (or `'N/A'`) |
| JobService.SearchJobs | app/services/job_service.py:97-143 | a store error gives the error dict with no jobs; no rows give the generated listings flagged `ai_generated`; rows give their formatted jobs with `total` equal to the row count, or the error dict with the formatting error's message; `total` is always the number of jobs and `query` the query |
| QuestionsService.SearchPhraseTerms | app/services/questions_service.py:30-32 | the search phrase starts with the query, equals it without skills, and contains every skill |
| QuestionsService.MapQuestionDefaults | app/services/questions_service.py:48-56 | each question field comes from the stored record or is `'N/A'` |
| QuestionsService.MapQuestions | app/services/questions_service.py:48-56 | exactly one question per stored record, in store order |
| QuestionsService.SearchQuestionsSpec | app/services/questions_service.py:19-68 | the search fails exactly when the store fails, with the 500 error; otherwise `total` is the number of questions and of records, the questions are the mapped records, and the "No questions found for query: '…'" message is present exactly when there are none |
| QuestionsService.TextItemsMembership | app/services/questions_service.py:76-78 | the `isinstance(skill, str)` filter keeps exactly the string items |
| QuestionsService.ParseTechSkillsSpec | app/services/questions_service.py:71-81 | a falsy value gives `[]`; a truthy number or bool raises the "not iterable" `TypeError`; otherwise the result is the first `min(n, 10)` of the `n` cleaned string items, in order |
| QuestionsService.CleanedSkillOrigin | app/services/questions_service.py:76-79 | a skill is kept exactly when some string item strips to it and it is longer than one character |
| QuestionsService.StringGivesNoSkills | app/services/questions_service.py:76-78 | a string passed as the skills gives `[]`, since iterating it yields one-character strings |
| QuestionsService.DictGivesItsKeys | app/services/questions_service.py:76-81 | a dict passed as the skills gives the cleaned keys, at most 10 |
| QuestionsService.ContextSectionEmpty | app/services/questions_service.py:138-139 | the context section is empty exactly when there are no context questions |
| QuestionsService.BuildContextSection | app/services/questions_service.py:138-142 | the loop builds the header followed by one question/answer entry per context question, in order |
| QuestionsService.QuestionPromptHolds | app/services/questions_service.py:144-166 | the prompt contains the title, the description, the comma-joined skills and the context section |
| QuestionsService.KeepLinesMembership | app/services/questions_service.py:180-181 | a line is kept, stripped, exactly when it is not blank and does not start with a code fence |
| QuestionsService.ReplyLinesShape | app/services/questions_service.py:180-181 | every fallback line is non-empty, stripped and free of newlines |
| QuestionsService.ExceptionReplyBecomesQuestion | app/services/questions_service.py:174-181 | the wrapper's reply to an exception with a one-line message without `[` that ends in a non-space parses, through the line fallback, to exactly that reply as the only question |
| QuestionsService.ParseQuestionReplyCases | app/services/questions_service.py:170-202 | a reply without `[` before `]`, or whose slice fails to decode, gives its lines; a slice decoding to a list of strings gives that list; any other decoded value gives `[]`; any other exception gives `[]` |
| QuestionsService.NonEmptyTextsOfSkills | app/services/questions_service.py:98 | `filter(None, …)` keeps every cleaned skill |
| QuestionsService.GroundingQueryTerms | app/services/questions_service.py:97-98 | the grounding query is the space-join of the skills, with a truthy string title in front; a truthy title that is not a string raises |
| QuestionsService.GenerateInterviewQuestions | app/services/questions_service.py:84-129 | in order: a job that is not a non-empty dict is a 400; a skills error is raised as is; a failed grounding query or search is a 500; a reply containing `"Error:"` or `"Unable to generate response"` is a 502; otherwise the parsed reply, its length, the title (`'N/A'` by default) and the cleaned skills; so the wrapper's reply to an exception whose message has no `:` and no `U` is not a 502 but a success, and when that message is one line without `[` the reply itself is the one question returned |
| FeedbackService.Subscript | app/services/feedback_service.py:61-62 | `qa['question']` succeeds exactly when `qa` is a dict with the key, giving its first value; otherwise it raises something other than a `ServiceError` |
| FeedbackService.QaEntrySpec | app/services/feedback_service.py:60-62 | a pair can be numbered exactly when it is a dict with both keys; its entry then starts with "Question " and holds its 1-based number, its question and its answer |
| FeedbackService.QaBlockSpec | app/services/feedback_service.py:59-62 | the block exists exactly when every pair can be numbered, and then holds every pair's entry; otherwise it carries the first failing pair's error, which is not a `ServiceError` |
| FeedbackService.QaBlockStartsWithFirst | app/services/feedback_service.py:59-62 | the block starts with the entry of the first pair |
| FeedbackService.BuildQaBlock | app/services/feedback_service.py:59-62 | the `+=` loop builds entry 1, then entry 2, and so on, in input order, stopping at the first pair that raises |
| FeedbackService.FillHolds | app/services/feedback_service.py:64-103 | a template starts with its opening and contains its responses label, the title, the description, the skills line and the block |
| FeedbackService.TemplateHolds | app/services/feedback_service.py:66-103 | either template contains the title, the description, the skills line and the block |
| FeedbackService.TemplateChoice | app/services/feedback_service.py:64-103 | the prompt opens with the single-answer wording exactly when there is one pair, and with the interview wording exactly when there is not |
| FeedbackService.InterviewTemplateSaysFive | app/services/feedback_service.py:84-103 | the interview template says "5 Interview Questions" whatever the number of pairs |
| FeedbackService.FeedbackPromptSpec | app/services/feedback_service.py:51-105 | the prompt can be built exactly when `", ".join(job.get('skills', []))` succeeds and every pair can be numbered, and the skills error is raised first; a built prompt contains the title, the description, the skills line and the numbered block, and uses the single-answer template exactly when there is one pair |
| FeedbackService.CreateFeedbackPrompt | app/services/feedback_service.py:51-105 | the prompt builder fails with the skills-join error first, then with the first bad pair's error, and otherwise gives the template chosen by the pair count |
| FeedbackService.ParseFeedbackReply | app/services/feedback_service.py:108-116 | the parsed reply is a dict with the single key "feedback" holding the reply unchanged |
| FeedbackService.GenerateFeedbackForAnswers | app/services/feedback_service.py:12-48 | in order: a job that is not a non-empty dict is a 400; then pairs that are not a non-empty list are a 400; a prompt that cannot be built is a 500; a reply containing `"Error:"` or `"Unable to generate response"` is a 502; otherwise the reply verbatim as `feedback` and the title (`'N/A'` by default) as `job_title`; so the wrapper's reply to an exception whose message has no `:` and no `U` is returned as the feedback |

## Left out

- Querying MongoDB is left out: the projection, the text-score sort and the limit are part of the store parameter. The filter handed to it is modelled.
- Vertex AI is left out: initialisation, the model call and the wrapper's `.strip()` of the reply. Replies are parameters. The wrapper's three fixed failure replies are modelled, since the services test for them.
- The internals of `json.loads` are left out. Its outcomes are which value it decodes, a `JSONDecodeError`, or some other exception.
- The job-description prompt in `generate_job_description` and the listing prompt in `generate_enhanced_job_listings` are not modelled. The generator's replies to them are parameters, so their wording decides nothing in the model.
- The except branch of `generate_job_description` is left out: `generate_llm_response` catches every exception and never raises.
- `datetime.now()` is the parameter `today`.
- Logging is left out.
- The Flask routes, app wiring, `models.py`, the data-seeding script and the interactive test client are left out.
- Floats are not modelled. JSON numbers are integers, which covers how the services use them: truthiness and `str()`.
- A dict is an ordered list of members whose first member with a key wins. Duplicate keys, which `json.loads` collapses to the last one, are not modelled.
- `repr` quotes strings without escaping their contents. It only appears in values interpolated into prompts and in messages that end up as a 500.
- The request values the routes pass into job search are taken as well typed: `query` and `job_level` as strings, `tech_skills` as a list of strings or absent. The questions and feedback services take their `job` and `qa_pairs` as arbitrary JSON.
- The wording of `TypeError` and `KeyError` messages is approximate. Such errors always end up as a generic 500 or as a raw 500, so only their kind matters.
- QuestionsService.ParseQuestionReply: when the last `]` of a reply comes before its first `[`, `_parse_ai_question_response` slices out the empty string and hands it to `json.loads`, which raises `JSONDecodeError`, so the source takes the line fallback. The model takes that fallback directly and does not ask the decoder about `""`.
- JobService.ParseSkillsSpec: there is no lemma that splitting at one separator splits the parsed skills there. Order is still stated, as a prefix of the cleaned pieces of the split in order.
- QuestionsService.SearchPhraseTerms: with skills present, the search phrase repeats the skills already in the grounding query, as in the source (`questions_service.py:97-98` and `30-32`). No lemma states how often they occur.

## Findings

| source | as written | input that shows it | evidently intended | confidence | as-written member | corrected member |
|---|---|---|---|---|---|---|
| app/services/questions_service.py:110 and app/services/feedback_service.py:30 | a reply counts as a generator failure only when it contains `"Error:"` or `"Unable to generate response"` | the wrapper's exception reply `"Error generating response: quota exceeded"` (app/services/ai_service.py:47): it contains neither marker, so the services treat it as questions or as feedback instead of answering 502 | every failure reply of the wrapper (initialisation failure, empty response, exception) gives 502 | not executed | External.SentinelMissesQuotaFailure | External.WrapperFailuresRecognised |

The two service methods perform the check as written (`External.IsFailureReplyAsWritten`).
Their contracts state the finding's consequence: the wrapper's reply to such an exception ends
in success, as a question or as the feedback, and not in a 502. `External.IsFailureReply` is the
corrected check, and `External.FailureCheckExtendsAsWritten` shows it only adds to what the
check as written flags.
