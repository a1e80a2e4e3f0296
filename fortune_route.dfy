/**
 * The daily-fortune endpoint (`POST` in src/app/api/fortune/today/route.ts):
 * fetch the fortune of a date from the `daily_fortunes` table, or generate it
 * from the singleton `saju_profile` row with a language model and store it.
 *
 * The database, the language model and `JSON.parse` are outside the model:
 * what they answer is an input (`Backend`, `parse`), and every round trip the
 * endpoint makes is recorded in the `calls` log of `FortuneTables`.
 */
module FortuneRoute {
  import opened Wrappers
  import ResponseText
  import CalendarDates

  /** A value `JSON.parse` can produce. */
  datatype Json =
    | JNull
    | JBool(b: bool)
    | JNumber(n: real)
    | JString(s: string)
    | JArray(items: seq<Json>)
    | JObject(fields: map<string, Json>)

  /** JavaScript truthiness of a parsed value (`undefined` is `None` and falsy). */
  predicate Truthy(v: Option<Json>)
  {
    match v
    case None => false
    case Some(JNull) => false
    case Some(JBool(b)) => b
    case Some(JNumber(n)) => n != 0.0
    case Some(JString(s)) => s != ""
    case Some(_) => true
  }

  const WealthKey: string := "재물운"
  const LoveKey: string := "연애운"
  const HealthKey: string := "건강운"
  const LuckyColorKey: string := "lucky_color"
  const LuckyNumberKey: string := "lucky_number"
  const DailyTipKey: string := "daily_tip"

  /** How much of the raw model text an `llm_invalid_json` answer carries. */
  const RawTextLimit: nat := 500

  /**
   * `parsed.key` (and `parsed['key']`, the same read) on a parsed value that is
   * not `null`; `None` is `undefined`. No primitive or array has one of the
   * keys the endpoint reads, so only an object can yield a value.
   */
  function Property(parsed: Json, key: string): (r: Option<Json>)
    requires !parsed.JNull?
    ensures r.Some? <==> parsed.JObject? && key in parsed.fields
    ensures r.Some? ==> r.value == parsed.fields[key]
  {
    if parsed.JObject? && key in parsed.fields then Some(parsed.fields[key]) else None
  }

  /** `parsed.k || parsed['k'] || ''`. */
  function OrEmpty(v: Option<Json>): (r: Json)
    ensures Truthy(Some(r)) <==> Truthy(v)
    ensures Truthy(v) ==> r == v.value
  {
    if Truthy(v) then v.value else JString("")
  }

  /** `parsed.k || parsed['k'] || null`: only a truthy value is kept. */
  function OrNull(v: Option<Json>): (r: Option<Json>)
    ensures r.Some? <==> Truthy(v)
    ensures r.Some? ==> r == v
  {
    if Truthy(v) then v else None
  }

  datatype FortuneContent = FortuneContent(wealth: Json, love: Json, health: Json)

  /** The `insertData` object: one `daily_fortunes` row before the database adds `created_at`. */
  datatype NewFortune = NewFortune(
    fortuneDate: string,
    content: FortuneContent,
    luckyColor: Option<Json>,
    luckyNumber: Option<Json>,
    dailyTip: Option<Json>)

  /** A stored `daily_fortunes` row. */
  datatype FortuneRow = FortuneRow(fields: NewFortune, createdAt: string)

  /** The `saju_profile` row with id 1. */
  datatype Profile = Profile(birthDate: string, birthTime: string, sajuData: Json, updatedAt: string)

  /** The endpoint's answers: a fortune row, or one of its typed errors. */
  datatype Response =
    | Fortune(row: FortuneRow)
    | FailedToFetchFortune(detail: string)
    | FailedToFetchProfile(detail: string)
    | ProfileNotFound
    | LlmEmptyOutput
    | LlmInvalidJson(rawText: string)
    | InvalidFortuneData(parsed: Json)
    | FailedToSaveFortune(detail: string)
    | LlmRequestFailed(detail: string)
  {
    /** The HTTP status of the answer. */
    function Status(): (s: int)
      ensures s == 200 <==> Fortune?
      ensures s == 400 <==> ProfileNotFound?
      ensures s == 500 <==> !Fortune? && !ProfileNotFound?
    {
      match this
      case Fortune(_) => 200
      case ProfileNotFound => 400
      case _ => 500
    }

    /** The `error` field of an error answer. */
    function ErrorCode(): string
      requires !Fortune?
    {
      match this
      case FailedToFetchFortune(_) => "failed_to_fetch_fortune"
      case FailedToFetchProfile(_) => "failed_to_fetch_profile"
      case ProfileNotFound => "profile_not_found"
      case LlmEmptyOutput => "llm_empty_output"
      case LlmInvalidJson(_) => "llm_invalid_json"
      case InvalidFortuneData(_) => "invalid_fortune_data"
      case FailedToSaveFortune(_) => "failed_to_save_fortune"
      case LlmRequestFailed(_) => "llm_request_failed"
    }
  }

  /**
   * `getTodayKey`: a non-empty `date` from the request body is the key;
   * otherwise the first ten characters of the clock's `toISOString()`.
   */
  function TodayKey(date: Option<string>, nowIso: string): (key: string)
    ensures date.Some? && date.value != "" ==> key == date.value
    ensures date.None? || date.value == "" ==> key == nowIso[..Min(10, |nowIso|)]
  {
    if date.Some? && date.value != "" then date.value else nowIso[..Min(10, |nowIso|)]
  }

  /**
   * Without a `date` in the body, the key is the "yyyy-MM-dd" key of the UTC
   * date `toISOString()` starts with (years 1 to 9999 print with four digits).
   */
  lemma ClockKeyIsDateKey(d: CalendarDates.Date, time: string)
    requires CalendarDates.Valid(d) && 1 <= d.year <= 9999
    ensures TodayKey(None, CalendarDates.DateKey(d) + time) == CalendarDates.DateKey(d)
    ensures TodayKey(Some(""), CalendarDates.DateKey(d) + time) == CalendarDates.DateKey(d)
  {
    CalendarDates.DateKeyFormat(d);
    assert (CalendarDates.DateKey(d) + time)[..10] == CalendarDates.DateKey(d);
  }

  function Min(a: int, b: int): int
  {
    if a <= b then a else b
  }

  /** `rawText.substring(0, 500)`. */
  function Excerpt(raw: string): (r: string)
    ensures |r| <= RawTextLimit && |r| == Min(RawTextLimit, |raw|)
    ensures r == raw[..|r|]
  {
    raw[..Min(RawTextLimit, |raw|)]
  }

  /** The `fortuneContent` object built from the parsed value. */
  function Content(parsed: Json): FortuneContent
    requires !parsed.JNull?
  {
    FortuneContent(
      OrEmpty(Property(parsed, WealthKey)),
      OrEmpty(Property(parsed, LoveKey)),
      OrEmpty(Property(parsed, HealthKey)))
  }

  /** All three fortune categories are truthy. */
  predicate Complete(c: FortuneContent)
  {
    Truthy(Some(c.wealth)) && Truthy(Some(c.love)) && Truthy(Some(c.health))
  }

  /**
   * What the endpoint makes of the cleaned text's parse result (lines
   * 139-183): a failed parse is `llm_invalid_json` with an excerpt of the raw
   * text; a parsed `null` makes the property read throw, which the enclosing
   * `catch` turns into `llm_request_failed`; a value missing one of the three
   * categories is `invalid_fortune_data`; anything else becomes `insertData`.
   */
  function Decide(dateKey: string, raw: string, result: Option<Json>): (r: Result<NewFortune, Response>)
    ensures r.Failure? ==> !r.error.Fortune? && !r.error.LlmEmptyOutput? && r.error.Status() == 500
    ensures (r.Failure? && r.error.LlmInvalidJson?) <==> result.None?
    ensures result.None? ==> r.error.rawText == Excerpt(raw)
    ensures result.Some? && result.value.JNull? ==> r.Failure? && r.error.LlmRequestFailed?
    ensures result.Some? && !result.value.JNull? && !Complete(Content(result.value))
      ==> r == Failure(InvalidFortuneData(result.value))
    ensures r.Success? <==> result.Some? && result.value.JObject? && Complete(Content(result.value))
    ensures r.Success? ==>
      && var fields := result.value.fields;
      && WealthKey in fields && LoveKey in fields && HealthKey in fields
      && r.value == NewFortune(
        dateKey,
        FortuneContent(fields[WealthKey], fields[LoveKey], fields[HealthKey]),
        OrNull(Property(result.value, LuckyColorKey)),
        OrNull(Property(result.value, LuckyNumberKey)),
        OrNull(Property(result.value, DailyTipKey)))
  {
    if result.None? then
      Failure(LlmInvalidJson(Excerpt(raw)))
    else if result.value.JNull? then
      Failure(LlmRequestFailed("Cannot read properties of null (reading '" + WealthKey + "')"))
    else
      var parsed := result.value;
      var content := Content(parsed);
      if !Complete(content) then
        Failure(InvalidFortuneData(parsed))
      else
        Success(NewFortune(
          dateKey,
          content,
          OrNull(Property(parsed, LuckyColorKey)),
          OrNull(Property(parsed, LuckyNumberKey)),
          OrNull(Property(parsed, DailyTipKey))))
  }

  /**
   * What the endpoint makes of the model's `output_text` (lines 112-183): a
   * missing or empty text is `llm_empty_output`; any other text is cleaned,
   * parsed and decided on.
   */
  function Interpret(dateKey: string, outputText: Option<string>, parse: string -> Option<Json>): (r: Result<NewFortune, Response>)
    ensures r == Failure(LlmEmptyOutput) <==> outputText.None? || outputText.value == ""
    ensures r.Failure? ==> !r.error.Fortune? && r.error.Status() == 500
    ensures outputText.Some? && outputText.value != ""
      ==> r == Decide(dateKey, outputText.value, parse(ResponseText.Clean(outputText.value)))
  {
    if outputText.None? || outputText.value == "" then
      Failure(LlmEmptyOutput)
    else
      Decide(dateKey, outputText.value, parse(ResponseText.Clean(outputText.value)))
  }

  /** One round trip of the endpoint to the database or to the language model. */
  datatype Call =
    | SelectFortune(date: string)
    | SelectProfile
    | Generate(date: string, saju: Json)
    | InsertFortune(row: NewFortune)

  /** The language model call returns a response (with or without `output_text`) or throws. */
  datatype LlmReply = Replied(outputText: Option<string>) | Threw(message: string)

  /** What the external services answer during one request: their errors and the model's reply. */
  datatype Backend = Backend(
    selectError: Option<string>,
    profileError: Option<string>,
    reply: LlmReply,
    insertError: Option<string>)

  /** The database's answer to an insert on a date that already has a row. */
  const DuplicateKey: string := "duplicate key value violates unique constraint"

  /** Every row is stored under its own `fortune_date`. */
  ghost predicate Keyed(store: map<string, FortuneRow>)
  {
    forall d :: d in store ==> store[d].fields.fortuneDate == d
  }

  /**
   * The insert into `daily_fortunes`, unique per `fortune_date`: it fails with
   * the database's error, or on a date that already has a row, and otherwise
   * adds the row under its date.
   */
  function InsertRow(store: map<string, FortuneRow>, row: NewFortune, createdAt: string, error: Option<string>)
    : (r: (Result<FortuneRow, string>, map<string, FortuneRow>))
    ensures r.0.Failure? <==> error.Some? || row.fortuneDate in store
    ensures r.0.Failure? ==> r.1 == store
    ensures error.Some? ==> r.0 == Failure(error.value)
    ensures row.fortuneDate in store && error.None? ==> r.0 == Failure(DuplicateKey)
    ensures r.0.Success? ==> r.0.value == FortuneRow(row, createdAt) && r.1 == store[row.fortuneDate := r.0.value]
  {
    if error.Some? then (Failure(error.value), store)
    else if row.fortuneDate in store then (Failure(DuplicateKey), store)
    else
      var stored := FortuneRow(row, createdAt);
      (Success(stored), store[row.fortuneDate := stored])
  }

  /** The outcome of one request: its answer, the fortune table afterwards and the round trips it made. */
  datatype Outcome = Outcome(response: Response, store: map<string, FortuneRow>, calls: seq<Call>)

  /**
   * What follows the model call for a date without a row (lines 112-222): the
   * reply is interpreted and, when it is usable, inserted once.
   */
  function AfterGeneration(
    store: map<string, FortuneRow>, dateKey: string, reply: LlmReply,
    parse: string -> Option<Json>, createdAt: string, insertError: Option<string>): (o: Outcome)
    ensures o.calls == [] || (|o.calls| == 1 && o.calls[0].InsertFortune?)
    ensures o.store == store || (o.response.Fortune? && o.store == store[o.response.row.fields.fortuneDate := o.response.row])
    ensures o.calls == [] ==> o.store == store
    ensures reply.Threw? ==> o == Outcome(LlmRequestFailed(reply.message), store, [])
    ensures o.calls != [] && insertError.Some? ==> o.response == FailedToSaveFortune(insertError.value) && o.store == store
    ensures reply.Replied? ==>
      var i := Interpret(dateKey, reply.outputText, parse);
      && (i.Failure? ==> o == Outcome(i.error, store, []))
      && (i.Success? ==> o.calls == [InsertFortune(i.value)])
      && (i.Success? && insertError.None? && i.value.fortuneDate in store ==> o.response == FailedToSaveFortune(DuplicateKey))
      && (i.Success? && insertError.None? && i.value.fortuneDate !in store ==>
            o.response == Fortune(FortuneRow(i.value, createdAt))
            && o.store == store[i.value.fortuneDate := FortuneRow(i.value, createdAt)])
  {
    match reply
    case Threw(message) => Outcome(LlmRequestFailed(message), store, [])
    case Replied(outputText) =>
      match Interpret(dateKey, outputText, parse)
      case Failure(e) => Outcome(e, store, [])
      case Success(row) =>
        var (inserted, store') := InsertRow(store, row, createdAt, insertError);
        var response := if inserted.Failure? then FailedToSaveFortune(inserted.error) else Fortune(inserted.value);
        Outcome(response, store', [InsertFortune(row)])
  }

  /**
   * The behaviour of `POST` for the date key `dateKey` (lines 42-222), as a
   * function of the tables it reads and what the external services answer.
   */
  function Handle(
    store: map<string, FortuneRow>, profile: Option<Profile>, dateKey: string,
    backend: Backend, parse: string -> Option<Json>, createdAt: string): Outcome
  {
    if backend.selectError.Some? then
      Outcome(FailedToFetchFortune(backend.selectError.value), store, [SelectFortune(dateKey)])
    else if dateKey in store then
      Outcome(Fortune(store[dateKey]), store, [SelectFortune(dateKey)])
    else if backend.profileError.Some? then
      Outcome(FailedToFetchProfile(backend.profileError.value), store, [SelectFortune(dateKey), SelectProfile])
    else if profile.None? then
      Outcome(ProfileNotFound, store, [SelectFortune(dateKey), SelectProfile])
    else
      var g := AfterGeneration(store, dateKey, backend.reply, parse, createdAt, backend.insertError);
      Outcome(g.response, g.store, [SelectFortune(dateKey), SelectProfile, Generate(dateKey, profile.value.sajuData)] + g.calls)
  }

  /**
   * Past both lookups, a reply the endpoint rejects (an empty or missing text,
   * text that does not parse, a parsed `null`, an incomplete object) is
   * answered with `Interpret`'s error after the three calls, with the table
   * unchanged.
   */
  lemma RejectedReplyIsReported(
    store: map<string, FortuneRow>, profile: Option<Profile>, dateKey: string,
    backend: Backend, parse: string -> Option<Json>, createdAt: string)
    requires backend.selectError.None? && dateKey !in store && backend.profileError.None? && profile.Some?
    requires backend.reply.Replied? && Interpret(dateKey, backend.reply.outputText, parse).Failure?
    ensures Handle(store, profile, dateKey, backend, parse, createdAt) == Outcome(
      Interpret(dateKey, backend.reply.outputText, parse).error, store,
      [SelectFortune(dateKey), SelectProfile, Generate(dateKey, profile.value.sajuData)])
  {
    HandleGenerates(store, profile, dateKey, backend, parse, createdAt);
    assert [SelectFortune(dateKey), SelectProfile, Generate(dateKey, profile.value.sajuData)] + []
      == [SelectFortune(dateKey), SelectProfile, Generate(dateKey, profile.value.sajuData)];
  }

  /** A missing or empty model text answers `llm_empty_output` and writes nothing. */
  lemma EmptyOutputIsReported(
    store: map<string, FortuneRow>, profile: Option<Profile>, dateKey: string,
    backend: Backend, parse: string -> Option<Json>, createdAt: string)
    requires backend.selectError.None? && dateKey !in store && backend.profileError.None? && profile.Some?
    requires backend.reply.Replied? && (backend.reply.outputText.None? || backend.reply.outputText.value == "")
    ensures var o := Handle(store, profile, dateKey, backend, parse, createdAt);
      o.response == LlmEmptyOutput && o.store == store && Inserts(o.calls) == 0
  {
    RejectedReplyIsReported(store, profile, dateKey, backend, parse, createdAt);
    EarlyTrailInsertsNothing(dateKey, profile.value.sajuData);
  }

  /**
   * Past both lookups, a reply the endpoint accepts is inserted, stamped with
   * the insert's `created_at`, and returned, when the database accepts it.
   */
  lemma AcceptedReplyIsStored(
    store: map<string, FortuneRow>, profile: Option<Profile>, dateKey: string,
    backend: Backend, parse: string -> Option<Json>, createdAt: string)
    requires backend.selectError.None? && dateKey !in store && backend.profileError.None? && profile.Some?
    requires backend.insertError.None?
    requires backend.reply.Replied? && Interpret(dateKey, backend.reply.outputText, parse).Success?
    ensures var row := FortuneRow(Interpret(dateKey, backend.reply.outputText, parse).value, createdAt);
      && row.fields.fortuneDate == dateKey
      && Handle(store, profile, dateKey, backend, parse, createdAt).response == Fortune(row)
      && Handle(store, profile, dateKey, backend, parse, createdAt).store == store[dateKey := row]
  {
    HandleGenerates(store, profile, dateKey, backend, parse, createdAt);
  }

  /**
   * Any parsed object whose three categories are truthy is stored with those
   * three values and its truthy optional fields, and returned.
   */
  lemma ObjectReplyIsStored(
    store: map<string, FortuneRow>, profile: Option<Profile>, dateKey: string,
    backend: Backend, parse: string -> Option<Json>, createdAt: string, parsed: Json)
    requires backend.selectError.None? && dateKey !in store && backend.profileError.None? && profile.Some?
    requires backend.insertError.None?
    requires RepliedWith(backend, parse, parsed)
    requires parsed.JObject? && Complete(Content(parsed))
    ensures WealthKey in parsed.fields && LoveKey in parsed.fields && HealthKey in parsed.fields
    ensures var row := FortuneRow(NewFortune(
        dateKey, FortuneContent(parsed.fields[WealthKey], parsed.fields[LoveKey], parsed.fields[HealthKey]),
        OrNull(Property(parsed, LuckyColorKey)), OrNull(Property(parsed, LuckyNumberKey)), OrNull(Property(parsed, DailyTipKey))),
        createdAt);
      && Handle(store, profile, dateKey, backend, parse, createdAt).response == Fortune(row)
      && Handle(store, profile, dateKey, backend, parse, createdAt).store == store[dateKey := row]
  {
    AcceptedReplyIsStored(store, profile, dateKey, backend, parse, createdAt);
  }

  /** The three calls before the reply hold no insert. */
  lemma EarlyTrailInsertsNothing(dateKey: string, saju: Json)
    ensures Inserts([SelectFortune(dateKey), SelectProfile, Generate(dateKey, saju)]) == 0
  {
    var t1 := [SelectFortune(dateKey)];
    var t2 := t1 + [SelectProfile];
    InsertsAppend([], SelectFortune(dateKey));
    assert [] + [SelectFortune(dateKey)] == t1;
    InsertsAppend(t1, SelectProfile);
    InsertsAppend(t2, Generate(dateKey, saju));
    assert t2 + [Generate(dateKey, saju)] == [SelectFortune(dateKey), SelectProfile, Generate(dateKey, saju)];
  }

  /** A failed lookup of the fortune table is answered with its error, after that lookup and nothing else. */
  lemma SelectErrorIsReported(
    store: map<string, FortuneRow>, profile: Option<Profile>, dateKey: string,
    backend: Backend, parse: string -> Option<Json>, createdAt: string)
    requires backend.selectError.Some?
    ensures var o := Handle(store, profile, dateKey, backend, parse, createdAt);
      && o == Outcome(FailedToFetchFortune(backend.selectError.value), store, [SelectFortune(dateKey)])
      && o.response.Status() == 500 && o.response.ErrorCode() == "failed_to_fetch_fortune"
  {
  }

  /** A cached row is returned as it is, after one lookup and nothing else. */
  lemma CacheHitIsReturnedUnchanged(
    store: map<string, FortuneRow>, profile: Option<Profile>, dateKey: string,
    backend: Backend, parse: string -> Option<Json>, createdAt: string)
    requires backend.selectError.None? && dateKey in store
    ensures Handle(store, profile, dateKey, backend, parse, createdAt)
      == Outcome(Fortune(store[dateKey]), store, [SelectFortune(dateKey)])
    ensures Keyed(store) ==> store[dateKey].fields.fortuneDate == dateKey
  {
  }

  /**
   * The table changes only when a new row is generated and stored: then it
   * gains exactly that row, under `dateKey`, which had none before.
   */
  lemma WritesOnlyTheNewRow(
    store: map<string, FortuneRow>, profile: Option<Profile>, dateKey: string,
    backend: Backend, parse: string -> Option<Json>, createdAt: string)
    ensures var o := Handle(store, profile, dateKey, backend, parse, createdAt);
      || o.store == store
      || (&& o.response.Fortune?
          && dateKey !in store
          && o.response.row.fields.fortuneDate == dateKey
          && o.response.row.createdAt == createdAt
          && o.store == store[dateKey := o.response.row])
    ensures var o := Handle(store, profile, dateKey, backend, parse, createdAt);
      !o.response.Fortune? ==> o.store == store
    ensures var o := Handle(store, profile, dateKey, backend, parse, createdAt);
      forall d :: d != dateKey ==> (d in o.store <==> d in store) && (d in store ==> o.store[d] == store[d])
  {
    if backend.selectError.None? && dateKey !in store && backend.profileError.None? && profile.Some? {
      GeneratedRowIsForDate(store, dateKey, backend.reply, parse, createdAt, backend.insertError);
    }
  }

  lemma GeneratedRowIsForDate(
    store: map<string, FortuneRow>, dateKey: string, reply: LlmReply,
    parse: string -> Option<Json>, createdAt: string, insertError: Option<string>)
    requires dateKey !in store
    ensures var o := AfterGeneration(store, dateKey, reply, parse, createdAt, insertError);
      || o.store == store
      || (&& o.response.Fortune?
          && o.response.row.fields.fortuneDate == dateKey
          && o.response.row.createdAt == createdAt
          && o.store == store[dateKey := o.response.row])
    ensures var o := AfterGeneration(store, dateKey, reply, parse, createdAt, insertError);
      !o.response.Fortune? ==> o.store == store
  {
  }

  /** Rows stay stored under their own date. */
  lemma HandleKeepsKeyed(
    store: map<string, FortuneRow>, profile: Option<Profile>, dateKey: string,
    backend: Backend, parse: string -> Option<Json>, createdAt: string)
    requires Keyed(store)
    ensures Keyed(Handle(store, profile, dateKey, backend, parse, createdAt).store)
  {
    WritesOnlyTheNewRow(store, profile, dateKey, backend, parse, createdAt);
  }

  /** Without a cached row, a failed or empty profile read ends the request before any generation. */
  lemma ProfileIsRequired(
    store: map<string, FortuneRow>, profile: Option<Profile>, dateKey: string,
    backend: Backend, parse: string -> Option<Json>, createdAt: string)
    requires backend.selectError.None? && dateKey !in store
    requires backend.profileError.Some? || profile.None?
    ensures var o := Handle(store, profile, dateKey, backend, parse, createdAt);
      && o.store == store
      && o.calls == [SelectFortune(dateKey), SelectProfile]
      && (backend.profileError.Some? ==> o.response == FailedToFetchProfile(backend.profileError.value))
      && (backend.profileError.None? ==> o.response == ProfileNotFound && o.response.Status() == 400)
  {
  }

  /** The number of inserts in a trail of calls. */
  function Inserts(calls: seq<Call>): (n: nat)
    ensures n <= |calls|
  {
    if calls == [] then 0
    else Inserts(calls[..|calls| - 1]) + (if calls[|calls| - 1].InsertFortune? then 1 else 0)
  }

  lemma InsertsAppend(calls: seq<Call>, c: Call)
    ensures Inserts(calls + [c]) == Inserts(calls) + (if c.InsertFortune? then 1 else 0)
  {
    assert (calls + [c])[..|calls|] == calls;
  }

  /** A request inserts at most once, and a table that changed saw exactly one insert. */
  lemma AtMostOneInsert(
    store: map<string, FortuneRow>, profile: Option<Profile>, dateKey: string,
    backend: Backend, parse: string -> Option<Json>, createdAt: string)
    ensures var o := Handle(store, profile, dateKey, backend, parse, createdAt);
      Inserts(o.calls) <= 1 && (o.store != store ==> Inserts(o.calls) == 1)
  {
    if backend.selectError.None? && dateKey !in store && backend.profileError.None? && profile.Some? {
      GeneratedInsertsOnce(store, profile, dateKey, backend, parse, createdAt);
    } else {
      EarlyReturnInsertsNothing(store, profile, dateKey, backend, parse, createdAt);
    }
  }

  lemma GeneratedInsertsOnce(
    store: map<string, FortuneRow>, profile: Option<Profile>, dateKey: string,
    backend: Backend, parse: string -> Option<Json>, createdAt: string)
    requires backend.selectError.None? && dateKey !in store && backend.profileError.None? && profile.Some?
    ensures var o := Handle(store, profile, dateKey, backend, parse, createdAt);
      Inserts(o.calls) <= 1 && (o.store != store ==> Inserts(o.calls) == 1)
  {
    var t1 := [SelectFortune(dateKey)];
    var t2 := t1 + [SelectProfile];
    var t3 := t2 + [Generate(dateKey, profile.value.sajuData)];
    InsertsAppend([], SelectFortune(dateKey));
    assert [] + [SelectFortune(dateKey)] == t1;
    InsertsAppend(t1, SelectProfile);
    InsertsAppend(t2, Generate(dateKey, profile.value.sajuData));
    assert Inserts(t3) == 0;
    assert t3 == [SelectFortune(dateKey), SelectProfile, Generate(dateKey, profile.value.sajuData)];
    var g := AfterGeneration(store, dateKey, backend.reply, parse, createdAt, backend.insertError);
    HandleGenerates(store, profile, dateKey, backend, parse, createdAt);
    InsertsOfTail(t3, g.calls);
    assert g.store != store ==> |g.calls| == 1;
  }

  lemma EarlyReturnInsertsNothing(
    store: map<string, FortuneRow>, profile: Option<Profile>, dateKey: string,
    backend: Backend, parse: string -> Option<Json>, createdAt: string)
    requires !(backend.selectError.None? && dateKey !in store && backend.profileError.None? && profile.Some?)
    ensures var o := Handle(store, profile, dateKey, backend, parse, createdAt);
      Inserts(o.calls) == 0 && o.store == store
  {
    InsertsAppend([], SelectFortune(dateKey));
    InsertsAppend([SelectFortune(dateKey)], SelectProfile);
  }

  /** A tail of at most one insert adds its length to the count. */
  lemma InsertsOfTail(trail: seq<Call>, tail: seq<Call>)
    requires tail == [] || (|tail| == 1 && tail[0].InsertFortune?)
    ensures Inserts(trail + tail) == Inserts(trail) + |tail|
  {
    if tail != [] {
      assert tail == [tail[0]];
      InsertsAppend(trail, tail[0]);
    } else {
      assert trail + tail == trail;
    }
  }

  /** Past the two lookups, a request is the three calls before it followed by what comes after generation. */
  lemma HandleGenerates(
    store: map<string, FortuneRow>, profile: Option<Profile>, dateKey: string,
    backend: Backend, parse: string -> Option<Json>, createdAt: string)
    requires backend.selectError.None? && dateKey !in store && backend.profileError.None? && profile.Some?
    ensures var g := AfterGeneration(store, dateKey, backend.reply, parse, createdAt, backend.insertError);
      Handle(store, profile, dateKey, backend, parse, createdAt)
        == Outcome(g.response, g.store, [SelectFortune(dateKey), SelectProfile, Generate(dateKey, profile.value.sajuData)] + g.calls)
  {
  }

  /** The model replied with text that cleans and parses to `parsed`. */
  predicate RepliedWith(backend: Backend, parse: string -> Option<Json>, parsed: Json)
  {
    backend.reply.Replied? && backend.reply.outputText.Some? && backend.reply.outputText.value != ""
    && parse(ResponseText.Clean(backend.reply.outputText.value)) == Some(parsed)
  }

  /**
   * A complete reply for a date without a row, with a profile and a working
   * database, is stored with exactly its six fields and returned.
   */
  lemma CompleteReplyIsStored(
    store: map<string, FortuneRow>, profile: Option<Profile>, dateKey: string,
    backend: Backend, parse: string -> Option<Json>, createdAt: string,
    wealth: string, love: string, health: string, color: string, number: real, tip: string)
    requires backend.selectError.None? && backend.profileError.None? && backend.insertError.None?
    requires dateKey !in store && profile.Some?
    requires wealth != "" && love != "" && health != "" && color != "" && number != 0.0 && tip != ""
    requires RepliedWith(backend, parse, JObject(map[
      WealthKey := JString(wealth), LoveKey := JString(love), HealthKey := JString(health),
      LuckyColorKey := JString(color), LuckyNumberKey := JNumber(number), DailyTipKey := JString(tip)]))
    ensures var row := FortuneRow(NewFortune(
        dateKey, FortuneContent(JString(wealth), JString(love), JString(health)),
        Some(JString(color)), Some(JNumber(number)), Some(JString(tip))), createdAt);
      Handle(store, profile, dateKey, backend, parse, createdAt).response == Fortune(row)
      && Handle(store, profile, dateKey, backend, parse, createdAt).store == store[dateKey := row]
  {
    CompleteReplyIsAccepted(dateKey, backend.reply.outputText, parse, wealth, love, health, color, number, tip);
  }

  /** The reply of `CompleteReplyIsStored` is turned into the row with its six fields. */
  lemma CompleteReplyIsAccepted(
    dateKey: string, outputText: Option<string>, parse: string -> Option<Json>,
    wealth: string, love: string, health: string, color: string, number: real, tip: string)
    requires wealth != "" && love != "" && health != "" && color != "" && number != 0.0 && tip != ""
    requires outputText.Some? && outputText.value != ""
    requires parse(ResponseText.Clean(outputText.value)) == Some(JObject(map[
      WealthKey := JString(wealth), LoveKey := JString(love), HealthKey := JString(health),
      LuckyColorKey := JString(color), LuckyNumberKey := JNumber(number), DailyTipKey := JString(tip)]))
    ensures Interpret(dateKey, outputText, parse) == Success(NewFortune(
      dateKey, FortuneContent(JString(wealth), JString(love), JString(health)),
      Some(JString(color)), Some(JNumber(number)), Some(JString(tip))))
  {
    CompleteObjectIsAccepted(dateKey, outputText.value, wealth, love, health, color, number, tip);
  }

  /** `Decide` on the parsed reply of `CompleteReplyIsAccepted`. */
  lemma CompleteObjectIsAccepted(
    dateKey: string, raw: string,
    wealth: string, love: string, health: string, color: string, number: real, tip: string)
    requires wealth != "" && love != "" && health != "" && color != "" && number != 0.0 && tip != ""
    ensures Decide(dateKey, raw, Some(JObject(map[
      WealthKey := JString(wealth), LoveKey := JString(love), HealthKey := JString(health),
      LuckyColorKey := JString(color), LuckyNumberKey := JNumber(number), DailyTipKey := JString(tip)])))
      == Success(NewFortune(
        dateKey, FortuneContent(JString(wealth), JString(love), JString(health)),
        Some(JString(color)), Some(JNumber(number)), Some(JString(tip))))
  {
    var parsed := JObject(map[
      WealthKey := JString(wealth), LoveKey := JString(love), HealthKey := JString(health),
      LuckyColorKey := JString(color), LuckyNumberKey := JNumber(number), DailyTipKey := JString(tip)]);
    ReplyFields(wealth, love, health, color, number, tip);
    assert Content(parsed) == FortuneContent(JString(wealth), JString(love), JString(health));
  }

  /** The six lookups in the reply of `CompleteReplyIsAccepted`. */
  lemma ReplyFields(wealth: string, love: string, health: string, color: string, number: real, tip: string)
    ensures var parsed := JObject(map[
      WealthKey := JString(wealth), LoveKey := JString(love), HealthKey := JString(health),
      LuckyColorKey := JString(color), LuckyNumberKey := JNumber(number), DailyTipKey := JString(tip)]);
      && Property(parsed, WealthKey) == Some(JString(wealth))
      && Property(parsed, LoveKey) == Some(JString(love))
      && Property(parsed, HealthKey) == Some(JString(health))
      && Property(parsed, LuckyColorKey) == Some(JString(color))
      && Property(parsed, LuckyNumberKey) == Some(JNumber(number))
      && Property(parsed, DailyTipKey) == Some(JString(tip))
  {
  }

  /** An optional field that is falsy, such as `lucky_number` 0, is stored as `null`. */
  lemma FalsyOptionalIsNull(parsed: Json, key: string)
    requires parsed.JObject? && key in parsed.fields && !Truthy(Some(parsed.fields[key]))
    ensures OrNull(Property(parsed, key)) == None
  {
  }

  /** Cleaning does not change what a fenced reply parses to. */
  lemma FencedReplyIsUnwrapped(dateKey: string, s: string, parse: string -> Option<Json>)
    requires s != "" && '`' !in s && parse(ResponseText.Trim(s)).Some?
    ensures Interpret(dateKey, Some("```json\n" + s + "\n```"), parse)
      == Interpret(dateKey, Some(s), parse)
  {
    ResponseText.CleanFencedReply(s);
    ResponseText.CleanOfBare(s);
  }

  /** The two tables the endpoint touches, and the log of its round trips. */
  class FortuneTables {
    /** `daily_fortunes`, by `fortune_date`. */
    var fortunes: map<string, FortuneRow>
    /** `saju_profile`: the row with id 1, if any. */
    var profile: Option<Profile>
    /** The database and model calls made so far, oldest first. */
    var calls: seq<Call>

    ghost predicate Valid()
      reads this
    {
      Keyed(fortunes)
    }

    constructor (fortunes0: map<string, FortuneRow>, profile0: Option<Profile>)
      requires Keyed(fortunes0)
      ensures Valid()
      ensures fortunes == fortunes0 && profile == profile0 && calls == []
    {
      fortunes := fortunes0;
      profile := profile0;
      calls := [];
    }

    /** `select('*').eq('fortune_date', dateKey).maybeSingle()` on `daily_fortunes`. */
    method SelectFortuneRow(dateKey: string, error: Option<string>) returns (r: Result<Option<FortuneRow>, string>)
      requires Valid()
      modifies this`calls
      ensures r.Success? && r.value.Some? ==> r.value.value.fields.fortuneDate == dateKey
      ensures calls == old(calls) + [SelectFortune(dateKey)]
      ensures error.Some? ==> r == Failure(error.value)
      ensures error.None? ==> r == Success(if dateKey in fortunes then Some(fortunes[dateKey]) else None)
    {
      calls := calls + [SelectFortune(dateKey)];
      if error.Some? {
        return Failure(error.value);
      }
      if dateKey in fortunes {
        return Success(Some(fortunes[dateKey]));
      }
      return Success(None);
    }

    /** `select('*').eq('id', 1).maybeSingle()` on `saju_profile`. */
    method SelectProfileRow(error: Option<string>) returns (r: Result<Option<Profile>, string>)
      modifies this`calls
      ensures calls == old(calls) + [SelectProfile]
      ensures r == if error.Some? then Failure(error.value) else Success(profile)
    {
      calls := calls + [SelectProfile];
      if error.Some? {
        return Failure(error.value);
      }
      return Success(profile);
    }

    /** `openai.responses.create(...)` with the date and the profile's chart data. */
    method GenerateFortune(dateKey: string, saju: Json, reply: LlmReply) returns (r: LlmReply)
      modifies this`calls
      ensures calls == old(calls) + [Generate(dateKey, saju)]
      ensures r == reply
    {
      calls := calls + [Generate(dateKey, saju)];
      return reply;
    }

    /** `insert(insertData).select('*').single()` on `daily_fortunes`. */
    method Insert(row: NewFortune, createdAt: string, error: Option<string>) returns (r: Result<FortuneRow, string>)
      requires Valid()
      modifies this`fortunes, this`calls
      ensures Valid()
      ensures calls == old(calls) + [InsertFortune(row)]
      ensures (r, fortunes) == InsertRow(old(fortunes), row, createdAt, error)
    {
      calls := calls + [InsertFortune(row)];
      if error.Some? {
        return Failure(error.value);
      }
      if row.fortuneDate in fortunes {
        return Failure(DuplicateKey);
      }
      var stored := FortuneRow(row, createdAt);
      fortunes := fortunes[row.fortuneDate := stored];
      return Success(stored);
    }

    /**
     * `POST`: the body's `date` (or the clock's `toISOString()`) selects the
     * day; the chain of early returns of lines 45-222.
     */
    method Post(date: Option<string>, nowIso: string, backend: Backend, parse: string -> Option<Json>, createdAt: string)
      returns (r: Response)
      requires Valid()
      modifies this`fortunes, this`calls
      ensures Valid()
      ensures var o := Handle(old(fortunes), old(profile), TodayKey(date, nowIso), backend, parse, createdAt);
        r == o.response && fortunes == o.store && calls == old(calls) + o.calls
    {
      var dateKey := TodayKey(date, nowIso);
      ghost var before := calls;
      var existing := SelectFortuneRow(dateKey, backend.selectError);
      if existing.Failure? {
        SelectErrorIsReported(fortunes, profile, dateKey, backend, parse, createdAt);
        return FailedToFetchFortune(existing.error);
      }
      if existing.value.Some? {
        CacheHitIsReturnedUnchanged(fortunes, profile, dateKey, backend, parse, createdAt);
        return Fortune(existing.value.value);
      }
      var found := SelectProfileRow(backend.profileError);
      if found.Failure? || found.value.None? {
        ProfileIsRequired(fortunes, profile, dateKey, backend, parse, createdAt);
        if found.Failure? {
          return FailedToFetchProfile(found.error);
        }
        return ProfileNotFound;
      }
      var saju := found.value.value.sajuData;
      var reply := GenerateFortune(dateKey, saju, backend.reply);
      ghost var trail := [SelectFortune(dateKey), SelectProfile, Generate(dateKey, saju)];
      assert calls == before + trail;
      HandleGenerates(fortunes, profile, dateKey, backend, parse, createdAt);
      r := UseReply(dateKey, reply, parse, createdAt, backend.insertError);
    }

    /**
     * The `try` block after the model call (lines 112-222): a usable reply is
     * inserted once; every other reply, and a failed insert, is an error answer.
     */
    method UseReply(dateKey: string, reply: LlmReply, parse: string -> Option<Json>, createdAt: string, insertError: Option<string>)
      returns (r: Response)
      requires Valid()
      modifies this`fortunes, this`calls
      ensures Valid()
      ensures var g := AfterGeneration(old(fortunes), dateKey, reply, parse, createdAt, insertError);
        r == g.response && fortunes == g.store && calls == old(calls) + g.calls
    {
      if reply.Threw? {
        return LlmRequestFailed(reply.message);
      }
      var insertData := Interpret(dateKey, reply.outputText, parse);
      if insertData.Failure? {
        return insertData.error;
      }
      var inserted := Insert(insertData.value, createdAt, insertError);
      if inserted.Failure? {
        return FailedToSaveFortune(inserted.error);
      }
      return Fortune(inserted.value);
    }
  }
}
