/**
 * The records of the example hero application: their fields, defaults and
 * range constraints, what validating a keyword mapping against them gives
 * (as `Model(**mapping)` does), and what `model_dump` makes of them.
 *
 * An `int` field is validated as pydantic's lax `int` does (a bool counts as
 * 1 or 0, a string holding a decimal integer as that integer); a `str` field
 * takes only a string. Unknown keys are ignored, as pydantic does by default.
 */
module Schemas {
  import opened JsonValue
  import opened Wrappers
  import opened JsonRpcModel
  import PyText

  /** Lowest and highest hero level (`Field(..., ge=0, le=50)`). */
  const MinLevel: int := 0
  const MaxLevel: int := 50

  // ---------------------------------------------------------------------------
  // Field checks shared by the records.

  /** A required `str` field, reported under its own name. */
  function RequiredStr(fields: map<string, Json>, name: string): (r: FieldCheck<string>)
    ensures r.Accepted? <==> name in fields && fields[name].JStr?
    ensures r.Accepted? ==> fields[name] == JStr(r.value)
  {
    if name !in fields then Rejected([FieldError([name], Missing)])
    else if fields[name].JStr? then Accepted(fields[name].s)
    else Rejected([FieldError([name], WrongType("str"))])
  }

  // ---------------------------------------------------------------------------
  // HealthyResult

  /** The answer of the health check; `status` is `Literal["ok"]` and defaults to "ok". */
  datatype HealthyResult = HealthyResult(status: string)

  /** `HealthyResult()`: the default value. */
  const Healthy: HealthyResult := HealthyResult("ok")

  function ValidateHealthy(fields: map<string, Json>): (r: Result<HealthyResult>)
    ensures r.Ok? ==> r.value.status == "ok"
    ensures r.Ok? <==> "status" !in fields || fields["status"] == JStr("ok")
  {
    if "status" !in fields || fields["status"] == JStr("ok") then Ok(Healthy)
    else Err(Invalid([FieldError(["status"], NotLiteral("ok"))]))
  }

  function EncodeHealthy(h: HealthyResult): (j: Json)
  {
    JObj(map["status" := JStr(h.status)])
  }

  // ---------------------------------------------------------------------------
  // PublicHero (a BaseHero with an optional id and a bounded level)

  datatype PublicHero = PublicHero(heroName: string, heroId: Option<int>, level: int)

  /** The `level` constraint: `0 <= level <= 50`. */
  predicate ValidLevel(level: int)
  {
    MinLevel <= level <= MaxLevel
  }

  predicate ValidPublicHero(h: PublicHero)
  {
    ValidLevel(h.level)
  }

  /** `hero_id`: a (lax) int or None, None when absent. */
  function CheckHeroId(fields: map<string, Json>): (r: FieldCheck<Option<int>>)
    ensures "hero_id" !in fields ==> r == Accepted(None)
    ensures "hero_id" in fields ==> (r.Accepted? <==> fields["hero_id"].JNull? || LaxInt(fields["hero_id"]).Some?)
    ensures "hero_id" in fields && r.Accepted? ==>
              r.value == (if fields["hero_id"].JNull? then None else LaxInt(fields["hero_id"]))
  {
    if "hero_id" !in fields then Accepted(None)
    else if fields["hero_id"].JNull? then Accepted(None)
    else match LaxInt(fields["hero_id"])
      case Some(n) => Accepted(Some(n))
      case None => Rejected([FieldError(["hero_id"], WrongType("int | None"))])
  }

  /** `level`: a required (lax) int in 0..50; a value out of range is refused, not clamped. */
  function CheckLevel(fields: map<string, Json>): (r: FieldCheck<int>)
    ensures r.Accepted? <==> "level" in fields && LaxInt(fields["level"]).Some? && ValidLevel(LaxInt(fields["level"]).value)
    ensures r.Accepted? ==> LaxInt(fields["level"]) == Some(r.value)
  {
    if "level" !in fields then Rejected([FieldError(["level"], Missing)])
    else match LaxInt(fields["level"])
      case None => Rejected([FieldError(["level"], WrongType("int"))])
      case Some(n) =>
        if n < MinLevel then Rejected([FieldError(["level"], TooSmall(MinLevel))])
        else if n > MaxLevel then Rejected([FieldError(["level"], TooLarge(MaxLevel))])
        else Accepted(n)
  }

  /** `PublicHero(**fields)`: field errors are collected in declaration order. */
  function ValidatePublicHero(fields: map<string, Json>): (r: Result<PublicHero>)
    ensures r.Ok? <==> && "hero_name" in fields && fields["hero_name"].JStr?
                       && CheckHeroId(fields).Accepted?
                       && "level" in fields && LaxInt(fields["level"]).Some? && ValidLevel(LaxInt(fields["level"]).value)
    ensures r.Ok? ==> ValidPublicHero(r.value) && fields["hero_name"] == JStr(r.value.heroName)
    ensures r.Ok? ==> CheckHeroId(fields) == Accepted(r.value.heroId) && LaxInt(fields["level"]) == Some(r.value.level)
    ensures r.Err? ==> r.failure.Invalid? && r.failure.errors != []
  {
    var name := RequiredStr(fields, "hero_name");
    var id := CheckHeroId(fields);
    var level := CheckLevel(fields);
    if name.Accepted? && id.Accepted? && level.Accepted? then
      Ok(PublicHero(name.value, id.value, level.value))
    else
      Err(Invalid(ErrorsOf(name) + ErrorsOf(id) + ErrorsOf(level)))
  }

  function EncodePublicHero(h: PublicHero): (j: Json)
  {
    JObj(map["hero_name" := JStr(h.heroName),
             "hero_id" := (if h.heroId.Some? then JInt(h.heroId.value) else JNull),
             "level" := JInt(h.level)])
  }

  /** A valid hero survives `model_dump` followed by validation. */
  lemma {:induction false} PublicHeroRoundTrip(h: PublicHero)
    requires ValidPublicHero(h)
    ensures ValidatePublicHero(EncodePublicHero(h).fields) == Ok(h)
  {
  }

  /** A level outside 0..50 is refused with the bound it breaks. */
  lemma {:induction false} LevelOutOfRangeRefused(fields: map<string, Json>)
    requires "level" in fields && LaxInt(fields["level"]).Some? && !ValidLevel(LaxInt(fields["level"]).value)
    ensures ValidatePublicHero(fields).Err?
    ensures var bound := if LaxInt(fields["level"]).value < MinLevel then TooSmall(MinLevel) else TooLarge(MaxLevel);
            FieldError(["level"], bound) in ValidatePublicHero(fields).failure.errors
  {
    var errs := ValidatePublicHero(fields).failure.errors;
    var tail := ErrorsOf(CheckLevel(fields));
    assert errs == ErrorsOf(RequiredStr(fields, "hero_name")) + ErrorsOf(CheckHeroId(fields)) + tail;
    assert tail[0] in errs;
  }
  /** A level sent as decimal text is read as that int: `{"hero_name": "a", "level": "7"}` is level 7. */
  lemma {:induction false} LevelTextAccepted(name: string, level: int)
    requires ValidLevel(level)
    ensures ValidatePublicHero(map["hero_name" := JStr(name), "level" := JStr(PyText.IntToString(level))])
            == Ok(PublicHero(name, None, level))
  {
    LaxIntOfText(level);
  }


  // ---------------------------------------------------------------------------
  // CreateHero (a BaseHero and nothing more)

  datatype CreateHero = CreateHero(heroName: string)

  function ValidateCreateHero(fields: map<string, Json>): (r: Result<CreateHero>)
    ensures r.Ok? <==> "hero_name" in fields && fields["hero_name"].JStr?
    ensures r.Ok? ==> fields["hero_name"] == JStr(r.value.heroName)
    ensures r.Err? ==> r.failure.Invalid?
  {
    match RequiredStr(fields, "hero_name")
    case Accepted(name) => Ok(CreateHero(name))
    case Rejected(errs) => Err(Invalid(errs))
  }

  /** `CreateHero` reads nothing but `hero_name`: every other key is ignored. */
  lemma {:induction false} CreateHeroReadsOnlyName(fields: map<string, Json>, other: map<string, Json>)
    requires "hero_name" in fields <==> "hero_name" in other
    requires "hero_name" in fields ==> fields["hero_name"] == other["hero_name"]
    ensures ValidateCreateHero(fields) == ValidateCreateHero(other)
  {
  }

  /** A mapping whose only key is `hero` (the hero nested one level down) lacks `hero_name`. */
  lemma {:induction false} NestedHeroIsNotCreateHero(hero: Json)
    ensures ValidateCreateHero(map["hero" := hero]) == Err(Invalid([FieldError(["hero_name"], Missing)]))
  {
  }

  function EncodeCreateHero(c: CreateHero): (j: Json)
  {
    JObj(map["hero_name" := JStr(c.heroName)])
  }

  // ---------------------------------------------------------------------------
  // FightingTask: a task id (fresh 32-digit lower-case hex by default) and a hero.

  datatype FightingTask = FightingTask(taskId: string, hero: PublicHero)

  function Pow16(n: nat): (p: nat)
    ensures p >= 1
  {
    if n == 0 then 1 else 16 * Pow16(n - 1)
  }

  /** Number of bits in a uuid; `uuid4().hex` writes them as 32 hex digits. */
  const UuidDigits: nat := 32

  function HexDigit(d: int): (c: char)
    requires 0 <= d < 16
  {
    "0123456789abcdef"[d]
  }

  predicate IsHexDigit(c: char)
  {
    '0' <= c <= '9' || 'a' <= c <= 'f'
  }

  function HexValue(c: char): (v: int)
  {
    if '0' <= c <= '9' then c as int - '0' as int
    else if 'a' <= c <= 'f' then c as int - 'a' as int + 10
    else 0
  }

  /** The `width` lowest hex digits of n, most significant first (`uuid.hex`). */
  function Hex(n: nat, width: nat): (s: string)
    ensures |s| == width
    ensures forall k | 0 <= k < |s| :: IsHexDigit(s[k])
  {
    if width == 0 then [] else Hex(n / 16, width - 1) + [HexDigit(n % 16)]
  }

  /** The number a string of hex digits denotes. */
  function Unhex(s: string): (n: nat)
  {
    if s == [] then 0 else 16 * Unhex(s[..|s| - 1]) + (var d := HexValue(s[|s| - 1]); if d < 0 then 0 else d)
  }

  /** Each hex digit reads back as the value it was written for. */
  lemma {:induction false} HexDigitValue(d: int)
    requires 0 <= d < 16
    ensures IsHexDigit(HexDigit(d)) && HexValue(HexDigit(d)) == d
  {
  }

  /** Splitting off the last hex digit of a number below 16^width. */
  lemma {:induction false} LastDigit(n: nat, width: nat) returns (q: nat, d: nat)
    requires 0 < width && n < Pow16(width)
    ensures q < Pow16(width - 1) && d < 16 && n == 16 * q + d
    ensures Hex(n, width) == Hex(q, width - 1) + [HexDigit(d)]
  {
    q, d := n / 16, n % 16;
    assert n < 16 * Pow16(width - 1);
  }

  /** Reading one more digit shifts the number read so far by one place. */
  lemma {:induction false} UnhexSnoc(s: string, c: char)
    requires IsHexDigit(c)
    ensures Unhex(s + [c]) == 16 * Unhex(s) + HexValue(c)
  {
    assert (s + [c])[..|s|] == s;
  }

  lemma {:induction false} UnhexHex(n: nat, width: nat)
    requires n < Pow16(width)
    ensures Unhex(Hex(n, width)) == n
    decreases width
  {
    if width > 0 {
      var q, d := LastDigit(n, width);
      var front, last := Hex(q, width - 1), HexDigit(d);
      calc {
        Unhex(Hex(n, width));
        Unhex(front + [last]);
        { HexDigitValue(d); UnhexSnoc(front, last); }
        16 * Unhex(front) + HexValue(last);
        { HexDigitValue(d); UnhexHex(q, width - 1); }
        16 * q + d;
      }
    }
  }

  /** Distinct uuids give distinct task ids. */
  lemma {:induction false} TaskIdsDistinct(a: nat, b: nat)
    requires a < Pow16(UuidDigits) && b < Pow16(UuidDigits) && a != b
    ensures Hex(a, UuidDigits) != Hex(b, UuidDigits)
  {
    UnhexHex(a, UuidDigits);
    UnhexHex(b, UuidDigits);
  }

  /** `FightingTask(hero=hero)`: the id comes from the default factory, given the uuid it drew. */
  function NewFightingTask(hero: PublicHero, uuid: nat): (t: FightingTask)
    requires uuid < Pow16(UuidDigits)
    ensures |t.taskId| == UuidDigits && Unhex(t.taskId) == uuid
    ensures forall k | 0 <= k < |t.taskId| :: IsHexDigit(t.taskId[k])
    ensures t.hero == hero
  {
    UnhexHex(uuid, UuidDigits);
    FightingTask(Hex(uuid, UuidDigits), hero)
  }

  /** `FightingTask(**fields)`: `hero` is required, `task_id` defaults to the fresh id. */
  function ValidateFightingTask(fields: map<string, Json>, uuid: nat): (r: Result<FightingTask>)
    requires uuid < Pow16(UuidDigits)
    ensures r.Ok? ==> "hero" in fields && fields["hero"].JObj? && ValidatePublicHero(fields["hero"].fields) == Ok(r.value.hero)
    ensures r.Ok? && "task_id" !in fields ==> r.value == NewFightingTask(r.value.hero, uuid)
    ensures r.Ok? && "task_id" in fields ==> fields["task_id"] == JStr(r.value.taskId)
    ensures "hero" !in fields ==> r.Err?
  {
    var id: FieldCheck<string> :=
      if "task_id" !in fields then Accepted(NewFightingTask(PublicHero("", None, 0), uuid).taskId)
      else RequiredStr(fields, "task_id");
    var hero: FieldCheck<PublicHero> :=
      if "hero" !in fields then Rejected([FieldError(["hero"], Missing)])
      else if !fields["hero"].JObj? then Rejected([FieldError(["hero"], WrongType("PublicHero"))])
      else match ValidatePublicHero(fields["hero"].fields)
        case Ok(h) => Accepted(h)
        case Err(f) => Rejected(Nest("hero", if f.Invalid? then f.errors else []));
    if id.Accepted? && hero.Accepted? then Ok(FightingTask(id.value, hero.value))
    else Err(Invalid(ErrorsOf(id) + ErrorsOf(hero)))
  }

  /** Errors of a nested record, reported under the field that holds it. */
  function Nest(field: string, errs: seq<FieldError>): (r: seq<FieldError>)
    ensures |r| == |errs|
    ensures forall k | 0 <= k < |r| :: r[k].loc == [field] + errs[k].loc && r[k].kind == errs[k].kind
  {
    seq(|errs|, k requires 0 <= k < |errs| => FieldError([field] + errs[k].loc, errs[k].kind))
  }

  function EncodeFightingTask(t: FightingTask): (j: Json)
  {
    JObj(map["task_id" := JStr(t.taskId), "hero" := EncodePublicHero(t.hero)])
  }

  lemma {:induction false} FightingTaskRoundTrip(t: FightingTask, uuid: nat)
    requires uuid < Pow16(UuidDigits)
    requires ValidPublicHero(t.hero)
    ensures ValidateFightingTask(EncodeFightingTask(t).fields, uuid) == Ok(t)
  {
    PublicHeroRoundTrip(t.hero);
  }

  // ---------------------------------------------------------------------------
  // FightingResult: both fields required.

  datatype FightingResult = FightingResult(fightingNews: string, rewards: string)

  function ValidateFightingResult(fields: map<string, Json>): (r: Result<FightingResult>)
    ensures r.Ok? <==> && "fighting_news" in fields && fields["fighting_news"].JStr?
                       && "rewards" in fields && fields["rewards"].JStr?
    ensures r.Ok? ==> fields["fighting_news"] == JStr(r.value.fightingNews) && fields["rewards"] == JStr(r.value.rewards)
  {
    var news := RequiredStr(fields, "fighting_news");
    var rewards := RequiredStr(fields, "rewards");
    if news.Accepted? && rewards.Accepted? then Ok(FightingResult(news.value, rewards.value))
    else Err(Invalid(ErrorsOf(news) + ErrorsOf(rewards)))
  }

  function EncodeFightingResult(f: FightingResult): (j: Json)
  {
    JObj(map["fighting_news" := JStr(f.fightingNews), "rewards" := JStr(f.rewards)])
  }

  lemma {:induction false} FightingResultRoundTrip(f: FightingResult)
    ensures ValidateFightingResult(EncodeFightingResult(f).fields) == Ok(f)
  {
  }
}
