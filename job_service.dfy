/** The job search service: the store filter it composes, the skill-string tokenizer,
    the formatting of store rows into job records, the generated fallback listings and
    the branch between them. The store, the model wrapper, `json.loads` and the clock
    are inputs. */
module JobService {
  import opened PyBuiltins
  import opened PyJson
  import opened PyRegex
  import opened SkillTokens
  import opened ServiceErrors
  import opened External

  // ---------------------------------------------------------------------------
  // The store filter

  /** One condition of a store filter: a full-text search, or a regular-expression
      match on one field with the given options. */
  datatype Condition =
    | TextSearch(search: string)
    | RegexMatch(field: string, pattern: string, options: string)

  /** A filter is one condition, or several under `$and`. */
  datatype Filter = Single(condition: Condition) | AllOf(conditions: seq<Condition>)

  function Conditions(f: Filter): seq<Condition> {
    match f
    case Single(c) => [c]
    case AllOf(cs) => cs
  }

  /** What a job search asks for. `jobLevel` is `""` when the caller gave none or an
      empty one (the service treats both alike); `techSkills` keeps `None` apart from
      `[]`, because the generated listings do not. */
  datatype JobQuery = JobQuery(query: string, techSkills: Option<seq<string>>, jobLevel: string, limit: int)

  predicate SkillsGiven(q: JobQuery) {
    q.techSkills.Some? && q.techSkills.value != []
  }

  /** The whole query, quoted, so that the store searches for it as one phrase. */
  function TextCondition(query: string): Condition {
    TextSearch("\"" + query + "\"")
  }

  function LevelCondition(jobLevel: string): Condition {
    RegexMatch("job level", jobLevel, "i")
  }

  /** `"|".join(re.escape(skill) for skill in skills)`. */
  function SkillsPattern(skills: seq<string>): string {
    Join("|", EscapeAll(skills))
  }

  function SkillsCondition(skills: seq<string>): Condition {
    RegexMatch("job_skills", SkillsPattern(skills), "i")
  }

  function SearchConditions(q: JobQuery): seq<Condition> {
    [TextCondition(q.query)]
    + (if q.jobLevel != "" then [LevelCondition(q.jobLevel)] else [])
    + (if SkillsGiven(q) then [SkillsCondition(q.techSkills.value)] else [])
  }

  /** The filter `_build_search_query` returns. */
  function SearchFilter(q: JobQuery): Filter {
    var cs := SearchConditions(q);
    if |cs| > 1 then AllOf(cs) else Single(cs[0])
  }

  predicate HasRegexOn(cs: seq<Condition>, field: string) {
    exists i :: 0 <= i < |cs| && cs[i].RegexMatch? && cs[i].field == field
  }

  /** Builds the filter by appending the optional conditions to the text condition. */
  method BuildSearchQuery(q: JobQuery) returns (f: Filter)
    ensures f == SearchFilter(q)
  {
    var conditions := [TextCondition(q.query)];
    if q.jobLevel != "" {
      conditions := conditions + [LevelCondition(q.jobLevel)];
    }
    if q.techSkills.Some? && q.techSkills.value != [] {
      var pattern := Join("|", EscapeAll(q.techSkills.value));
      conditions := conditions + [RegexMatch("job_skills", pattern, "i")];
    }
    if |conditions| > 1 {
      f := AllOf(conditions);
    } else {
      f := Single(conditions[0]);
    }
  }

  /** Without a level and without skills the filter is the bare text condition;
      otherwise it is an `$and` of the text condition, then the level condition, then
      the skills condition, each optional condition present exactly when asked for and
      nothing else in it. */
  lemma SearchFilterShape(q: JobQuery)
    ensures var f := SearchFilter(q); var cs := Conditions(f);
      && (f.Single? <==> q.jobLevel == "" && !SkillsGiven(q))
      && |cs| == 1 + (if q.jobLevel != "" then 1 else 0) + (if SkillsGiven(q) then 1 else 0)
      && cs[0] == TextCondition(q.query)
      && (HasRegexOn(cs, "job level") <==> q.jobLevel != "")
      && (HasRegexOn(cs, "job_skills") <==> SkillsGiven(q))
      && (q.jobLevel != "" ==> cs[1] == LevelCondition(q.jobLevel))
      && (SkillsGiven(q) ==> cs[|cs| - 1] == SkillsCondition(q.techSkills.value))
  {
    var cs := SearchConditions(q);
    assert Conditions(SearchFilter(q)) == cs;
    if q.jobLevel != "" {
      assert cs[1].RegexMatch? && cs[1].field == "job level";
    }
    if SkillsGiven(q) {
      assert cs[|cs| - 1].RegexMatch? && cs[|cs| - 1].field == "job_skills";
    }
  }

  /** The skills condition matches any one of the skills, each taken literally, in the
      order the caller gave them. */
  lemma SkillsPatternAlternatives(skills: seq<string>)
    requires skills != []
    ensures Alternatives(SkillsPattern(skills)) == EscapeAll(skills)
    ensures var alts := Alternatives(SkillsPattern(skills));
      forall i :: 0 <= i < |skills| ==> Unescape(alts[i]) == skills[i]
  {
    JoinedEscapesAlternatives(skills);
  }

  // ---------------------------------------------------------------------------
  // The skill-string tokenizer

  const SkillSeparators: set<char> := {',', ';', '|'}

  /** `parse_skills(s)` for a string `s`: the stripped pieces between `,`, `;` and `|`
      that are longer than one character, in order, at most ten of them. */
  function ParseSkills(s: string): seq<string> {
    if s == "" then [] else Prefix(CleanTokens(Split(s, SkillSeparators)), MaxSkills)
  }

  lemma ParseSkillsSpec(s: string)
    ensures var r := ParseSkills(s);
      && (s == "" ==> r == [])
      && |r| <= MaxSkills
      && (forall i :: 0 <= i < |r| ==> IsSkill(r[i]) && NoneOf(r[i], SkillSeparators))
      && var all := CleanTokens(Split(s, SkillSeparators));
      && |r| == (if |all| < MaxSkills then |all| else MaxSkills)
      && r == all[..|r|]
  {
    var all := CleanTokens(Split(s, SkillSeparators));
    if s == "" {
      assert Split(s, SkillSeparators) == [""];
    } else {
      SplitNoneOf(s, SkillSeparators);
      CleanTokensNoneOf(Split(s, SkillSeparators), SkillSeparators);
      PrefixOfSkills(all, Prefix(all, MaxSkills));
    }
  }

  lemma PrefixOfSkills(all: seq<string>, r: seq<string>)
    requires forall i :: 0 <= i < |all| ==> IsSkill(all[i]) && NoneOf(all[i], SkillSeparators)
    requires |r| <= |all| && r == all[..|r|]
    ensures forall i :: 0 <= i < |r| ==> IsSkill(r[i]) && NoneOf(r[i], SkillSeparators)
  {
    assert forall i :: 0 <= i < |r| ==> r[i] == all[i];
  }

  /** The message of the `TypeError` that `re.split` raises on a value that is not a string. */
  function NotAStringMessage(v: Json): string {
    NotAStringPrefix + TypeName(v) + "'"
  }

  const NotAStringPrefix := "expected string or bytes-like object, got '"

  /** `parse_skills(v)` for whatever a row holds: a falsy value gives no skills, a
      string is tokenized, anything else makes `re.split` raise. */
  function SkillsField(v: Json): (r: Result<seq<string>>)
    ensures !Truthy(v) ==> r == Ok([])
    ensures v.Str? ==> r == Ok(ParseSkills(v.s))
    ensures Truthy(v) && !v.Str? ==> r == Err(OtherError(NotAStringMessage(v)))
  {
    if !Truthy(v) then Ok([])
    else if v.Str? then Ok(ParseSkills(v.s))
    else Err(OtherError(NotAStringMessage(v)))
  }

  // ---------------------------------------------------------------------------
  // Job records

  /** A job as the service returns it. Stored rows and generated listings may hold any
      value in any field, so every field is a JSON value. */
  datatype Job = Job(
    title: Json, company: Json, location: Json, description: Json, skills: Json,
    jobLevel: Json, jobType: Json, jobLink: Json, firstSeen: Json)

  const SearchLink := "https://www.linkedin.com/jobs/search"

  const GeneratedLink := "https://www.linkedin.com/jobs/generated"

  /** One store row as a job record. `reply` is the model wrapper's reply to the
      description prompt of this row; `today` is the current date as `YYYY-MM-DD`. */
  function FormatRow(row: Dict, reply: string, today: string): Result<Job> {
    match SkillsField(Get(row, "job_skills", Str("")))
    case Err(e) => Err(e)
    case Ok(skills) =>
      Ok(Job(
        Get(row, "job_title", NotAvailable),
        Get(row, "company", NotAvailable),
        Get(row, "job_location", NotAvailable),
        Str(Strip(reply)),
        StrList(skills),
        Get(row, "job level", NotAvailable),
        Get(row, "job_type", NotAvailable),
        Get(row, "job_link", Str(SearchLink)),
        Get(row, "first_seen", Str(today))))
  }

  /** A row becomes a job unless its skills cannot be parsed. The job's skills are the
      parsed skills, its description the stripped reply, and every other field the row's
      own value when the row has the key, and `'N/A'`, the search page link or today's
      date otherwise. */
  lemma FormatRowFields(row: Dict, reply: string, today: string)
    ensures var skills := SkillsField(Get(row, "job_skills", Str("")));
      var r := FormatRow(row, reply, today);
      && (r.Ok? <==> skills.Ok?)
      && (r.Err? ==> r.error == skills.error)
      && (r.Ok? ==> var j := r.value;
        && FieldFrom(row, "job_title", NotAvailable, j.title)
        && FieldFrom(row, "company", NotAvailable, j.company)
        && FieldFrom(row, "job_location", NotAvailable, j.location)
        && j.description == Str(Strip(reply))
        && j.skills == StrList(skills.value)
        && FieldFrom(row, "job level", NotAvailable, j.jobLevel)
        && FieldFrom(row, "job_type", NotAvailable, j.jobType)
        && FieldFrom(row, "job_link", Str(SearchLink), j.jobLink)
        && FieldFrom(row, "first_seen", Str(today), j.firstSeen))
  {
  }

  /** What formatting each row gives; `describe(i)` is the wrapper's reply for the i-th
      row. */
  function RowResults(rows: seq<Dict>, describe: nat -> string, today: string): (r: seq<Result<Job>>)
    ensures |r| == |rows|
    ensures forall i :: 0 <= i < |rows| ==> r[i] == FormatRow(rows[i], describe(i), today)
  {
    seq(|rows|, i requires 0 <= i < |rows| => FormatRow(rows[i], describe(i), today))
  }

  /** `_format_job_results`: formats the rows one by one, raising at the first row whose
      skills cannot be parsed. */
  method FormatJobResults(rows: seq<Dict>, describe: nat -> string, today: string) returns (r: Result<seq<Job>>)
    ensures r == Collect(RowResults(rows, describe, today))
  {
    ghost var results := RowResults(rows, describe, today);
    var formatted := [];
    var i := 0;
    while i < |rows|
      invariant 0 <= i <= |rows|
      invariant Collect(results[..i]) == Ok(formatted)
    {
      var job := FormatRow(rows[i], describe(i), today);
      if job.Err? {
        CollectStopsAt(results, i);
        return Err(job.error);
      }
      assert results[..i + 1][..i] == results[..i];
      formatted := formatted + [job.value];
      i := i + 1;
    }
    assert results[..i] == results;
    return Ok(formatted);
  }

  /** The rows format exactly when each row does, into one job per row in row order;
      otherwise the call raises the error of the first row that does not format. */
  lemma FormattedRows(rows: seq<Dict>, describe: nat -> string, today: string)
    ensures var r := Collect(RowResults(rows, describe, today));
      && (r.Ok? <==> forall i :: 0 <= i < |rows| ==> FormatRow(rows[i], describe(i), today).Ok?)
      && (r.Ok? ==> |r.value| == |rows|)
      && (r.Ok? ==> forall i :: 0 <= i < |rows| ==> r.value[i] == FormatRow(rows[i], describe(i), today).value)
      && (r.Err? ==> exists i :: (
            && 0 <= i < |rows| && FormatRow(rows[i], describe(i), today).Err?
            && r.error == FormatRow(rows[i], describe(i), today).error
            && forall k :: 0 <= k < i ==> FormatRow(rows[k], describe(k), today).Ok?))
  {
    var results := RowResults(rows, describe, today);
    CollectSpec(results);
    if Collect(results).Err? {
      var i :| FirstFailure(results, i) && Collect(results).error == results[i].error;
    }
  }

  // ---------------------------------------------------------------------------
  // Generated listings

  /** `[query] if tech_skills is None else tech_skills`. */
  function DefaultSkills(q: JobQuery): Json {
    if q.techSkills.None? then StrList([q.query]) else StrList(q.techSkills.value)
  }

  /** `job_level or default`. */
  function LevelOr(q: JobQuery, default: string): Json {
    Str(if q.jobLevel != "" then q.jobLevel else default)
  }

  const GeneratedDescriptionMiddle := " Developer\n\n**Company:** Generated Tech Company\n\nAn exciting opportunity for a "

  function GeneratedDescription(query: string): string {
    "## " + query + GeneratedDescriptionMiddle + query + " professional."
  }

  /** One generated listing, default-filled, with its link forced to the generated one. */
  function CleanJob(d: Dict, q: JobQuery, today: string): (j: Job)
    ensures j.jobLink == Str(GeneratedLink)
  {
    Job(
      Get(d, "title", Str(q.query + " Developer")),
      Get(d, "company", Str("Generated Tech Company")),
      Get(d, "location", Str("Remote")),
      Get(d, "description", Str(GeneratedDescription(q.query))),
      Get(d, "skills", DefaultSkills(q)),
      Get(d, "job_level", LevelOr(q, "Mid-Senior")),
      Get(d, "job_type", Str("Hybrid")),
      Str(GeneratedLink),
      Get(d, "first_seen", Str(today)))
  }

  /** Each field of a generated listing is the entry's own value when it has the key,
      and the documented default otherwise. */
  lemma CleanJobDefaults(d: Dict, q: JobQuery, today: string)
    ensures var j := CleanJob(d, q, today);
      && FieldFrom(d, "title", Str(q.query + " Developer"), j.title)
      && FieldFrom(d, "company", Str("Generated Tech Company"), j.company)
      && FieldFrom(d, "location", Str("Remote"), j.location)
      && FieldFrom(d, "description", Str(GeneratedDescription(q.query)), j.description)
      && FieldFrom(d, "skills", DefaultSkills(q), j.skills)
      && FieldFrom(d, "job_level", LevelOr(q, "Mid-Senior"), j.jobLevel)
      && FieldFrom(d, "job_type", Str("Hybrid"), j.jobType)
      && FieldFrom(d, "first_seen", Str(today), j.firstSeen)
  {
  }

  /** The cleaned listings of the dict entries of `items`, in order; other entries are
      skipped. */
  function CleanJobs(items: seq<Json>, q: JobQuery, today: string): (r: seq<Job>)
    ensures |r| <= |items|
    ensures forall i :: 0 <= i < |r| ==> r[i].jobLink == Str(GeneratedLink)
  {
    if items == [] then []
    else (if items[0].Obj? then [CleanJob(items[0].members, q, today)] else []) + CleanJobs(items[1..], q, today)
  }

  lemma {:induction false} CleanJobsAppend(a: seq<Json>, b: seq<Json>, q: JobQuery, today: string)
    ensures CleanJobs(a + b, q, today) == CleanJobs(a, q, today) + CleanJobs(b, q, today)
  {
    if a == [] {
      assert a + b == b;
    } else {
      assert (a + b)[1..] == a[1..] + b;
      CleanJobsAppend(a[1..], b, q, today);
    }
  }

  /** Every cleaned listing comes from a dict entry, and there are none exactly when
      no entry is a dict. */
  lemma {:induction false} CleanJobsFromDicts(items: seq<Json>, q: JobQuery, today: string)
    ensures forall j :: j in CleanJobs(items, q, today) ==>
      exists i :: 0 <= i < |items| && items[i].Obj? && j == CleanJob(items[i].members, q, today)
    ensures CleanJobs(items, q, today) == [] <==> forall i :: 0 <= i < |items| ==> !items[i].Obj?
  {
    if items != [] {
      var rest := items[1..];
      CleanJobsFromDicts(rest, q, today);
      assert forall i :: 1 <= i < |items| ==> items[i] == rest[i - 1];
      forall j | j in CleanJobs(items, q, today)
        ensures exists i :: 0 <= i < |items| && items[i].Obj? && j == CleanJob(items[i].members, q, today)
      {
        if j !in CleanJobs(rest, q, today) {
          assert items[0].Obj? && j == CleanJob(items[0].members, q, today);
        } else {
          var i :| 0 <= i < |rest| && rest[i].Obj? && j == CleanJob(rest[i].members, q, today);
          assert items[i + 1] == rest[i];
        }
      }
    }
  }

  const FallbackTail := " Position\n\n**Company:** Tech Company\n\n**Location:** Remote\n\n"
    + "This is a fallback entry because the AI service failed to generate jobs."

  /** The single job returned when nothing usable was generated. */
  function FallbackJob(q: JobQuery, today: string): Job {
    Job(
      Str("Fallback: " + q.query + " position"),
      Str("Tech Company"),
      Str("Remote"),
      Str("## " + q.query + FallbackTail),
      DefaultSkills(q),
      LevelOr(q, "N/A"),
      Str("Hybrid"),
      Str(GeneratedLink),
      Str(today))
  }

  /** What `generate_enhanced_job_listings` returns, given the wrapper's reply and what
      `json.loads` makes of the bracket slice. A decoded list gives the cleaned dict
      entries among its first `limit` items; a decoded string has no dict entries; a
      decoded dict, number, boolean or null makes the slicing or `len` raise. */
  function EnhancedListings(q: JobQuery, reply: string, decode: string -> Decoded, today: string): seq<Job> {
    match BracketSlice(reply)
    case None => [FallbackJob(q, today)]
    case Some(text) =>
      match decode(text)
      case Value(Arr(items)) => CleanJobs(Prefix(items, q.limit), q, today)
      case Value(Str(_)) => []
      case _ => [FallbackJob(q, today)]
  }

  method GenerateEnhancedJobListings(q: JobQuery, reply: string, decode: string -> Decoded, today: string)
    returns (jobs: seq<Job>)
    ensures jobs == EnhancedListings(q, reply, decode, today)
  {
    var start := Find(reply, '[');
    var end := RFind(reply, ']') + 1;
    if start == -1 || end <= start {
      return [FallbackJob(q, today)];
    }
    var decoded := decode(reply[start..end]);
    if !decoded.Value? || !(decoded.value.Arr? || decoded.value.Str?) {
      return [FallbackJob(q, today)];
    }
    if decoded.value.Str? {
      return [];
    }
    jobs := CleanListings(Prefix(decoded.value.items, q.limit), q, today);
  }

  /** The loop of `generate_enhanced_job_listings`: cleans the dict entries among `items`,
      in order, skipping the others. */
  method CleanListings(items: seq<Json>, q: JobQuery, today: string) returns (jobs: seq<Job>)
    ensures jobs == CleanJobs(items, q, today)
  {
    jobs := [];
    for i := 0 to |items|
      invariant jobs == CleanJobs(items[..i], q, today)
    {
      CleanJobsAppend(items[..i], [items[i]], q, today);
      assert items[..i + 1] == items[..i] + [items[i]];
      assert [items[i]][1..] == [];
      if items[i].Obj? {
        var job := CleanJob(items[i].members, q, today);
        assert CleanJobs([items[i]], q, today) == [job];
        jobs := jobs + [job];
      } else {
        assert CleanJobs([items[i]], q, today) == [];
      }
    }
    assert items[..|items|] == items;
  }

  /** Every generated listing, fallback included, links to the generated-jobs page. */
  lemma ListingsLinkForced(q: JobQuery, reply: string, decode: string -> Decoded, today: string)
    ensures forall j :: j in EnhancedListings(q, reply, decode, today) ==> j.jobLink == Str(GeneratedLink)
  {
  }

  /** When the slice decodes to a list, the result has at most `limit` jobs, all from its
      dict entries, and none at all when it has no dict entry: not the fallback job. */
  lemma ParsedListings(q: JobQuery, reply: string, decode: string -> Decoded, today: string)
    requires BracketSlice(reply).Some? && decode(BracketSlice(reply).value).Value?
    requires decode(BracketSlice(reply).value).value.Arr?
    ensures var items := Prefix(decode(BracketSlice(reply).value).value.items, q.limit);
      var jobs := EnhancedListings(q, reply, decode, today);
      && (q.limit >= 0 ==> |jobs| <= q.limit)
      && (forall j :: j in jobs ==> exists i :: 0 <= i < |items| && items[i].Obj? && j == CleanJob(items[i].members, q, today))
      && (jobs == [] <==> forall i :: 0 <= i < |items| ==> !items[i].Obj?)
  {
    var items := Prefix(decode(BracketSlice(reply).value).value.items, q.limit);
    CleanJobsFromDicts(items, q, today);
  }

  /** Without a `[` before a `]`, and whenever the slice does not decode, the result is the
      one fallback job. */
  lemma FallbackListing(q: JobQuery, reply: string, decode: string -> Decoded, today: string)
    requires BracketSlice(reply).None? || !decode(BracketSlice(reply).value).Value?
    ensures var jobs := EnhancedListings(q, reply, decode, today);
      && jobs == [FallbackJob(q, today)]
      && jobs[0].title == Str("Fallback: " + q.query + " position")
      && jobs[0].skills == (if q.techSkills.None? then StrList([q.query]) else StrList(q.techSkills.value))
      && jobs[0].jobLevel == Str(if q.jobLevel == "" then "N/A" else q.jobLevel)
  {
  }

  // ---------------------------------------------------------------------------
  // The search

  /** The dict `search_jobs` returns: a listing, or the error value that replaces every
      exception. */
  datatype JobSearchResult =
    | Listing(jobs: seq<Job>, total: int, query: string, aiGenerated: bool)
    | Failure(jobs: seq<Job>, total: int, error: string, query: string)

  /** `search_jobs`. `store` lists what the store returns for a filter and a limit,
      `describe(i)` is the wrapper's reply for the i-th row's description, `listingReply`
      its reply to the listing prompt, `decode` is `json.loads` and `today` the date. */
  method SearchJobs(
    q: JobQuery, store: (Filter, int) -> Cursor, describe: nat -> string,
    listingReply: string, decode: string -> Decoded, today: string)
    returns (r: JobSearchResult)
    ensures r.total == |r.jobs| && r.query == q.query
    ensures r.Failure? ==> r.jobs == []
    ensures var cursor := store(SearchFilter(q), q.limit);
      && (cursor.StoreError? ==> r == Failure([], 0, cursor.message, q.query))
      && (cursor.Rows? && cursor.rows == [] ==>
            r.Listing? && r.aiGenerated && r.jobs == EnhancedListings(q, listingReply, decode, today))
      && (cursor.Rows? && cursor.rows != [] ==>
            var formatted := Collect(RowResults(cursor.rows, describe, today));
            if formatted.Ok? then r == Listing(formatted.value, |cursor.rows|, q.query, false)
            else r == Failure([], 0, formatted.error.message, q.query))
  {
    var filter := BuildSearchQuery(q);
    var cursor := store(filter, q.limit);
    if cursor.StoreError? {
      return Failure([], 0, cursor.message, q.query);
    }
    if cursor.rows != [] {
      var formatted := FormatJobResults(cursor.rows, describe, today);
      if formatted.Err? {
        return Failure([], 0, formatted.error.message, q.query);
      }
      CollectSpec(RowResults(cursor.rows, describe, today));
      return Listing(formatted.value, |formatted.value|, q.query, false);
    }
    var generated := GenerateEnhancedJobListings(q, listingReply, decode, today);
    return Listing(generated, |generated|, q.query, true);
  }
}
