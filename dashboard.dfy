/** The dashboard aggregator of src/dashboard_treatments.py: folds the optimized records
    into the counters of the "Visão Geral" page. Date parsing is abstract (a pair of
    functions), and the wall clock is the parameter `today`. */
module Dashboard {
  import opened JsonValues
  import opened Text
  import opened Counters
  import Optimizer

  // ---------------------------------------------------------------------------
  // Dates

  /** The parts of a `datetime` the dashboard reads. */
  datatype DateTime = DateTime(year: int, month: int, day: int, hour: int)

  /** Values a Python `datetime` can hold. */
  type Moment = d: DateTime | 1 <= d.year <= 9999 && 1 <= d.month <= 12 && 1 <= d.day <= 31 && 0 <= d.hour < 24
    witness DateTime(1970, 1, 1, 0)

  /** `_parse_date` is left abstract: `fromEpoch` stands for `utcfromtimestamp` (None when
      it raises `OSError` or `ValueError`; the `OverflowError` of a timestamp outside the
      platform's range is not caught by the code and has no counterpart here), `fromText`
      for the `strptime`/`fromisoformat` attempts. */
  datatype DateParser = DateParser(fromEpoch: real -> Option<Moment>, fromText: string -> Option<Moment>)

  /** Numbers above 10^12 are read as milliseconds. */
  function EpochSeconds(x: real): (r: real)
    ensures x <= 1000000000000.0 ==> r == x
    ensures x > 1000000000000.0 ==> r * 1000.0 == x
  {
    if x > 1000000000000.0 then x / 1000.0 else x
  }

  /** `_parse_date(value)`: numbers (a `bool` is an `int` to Python) go through the epoch
      reading, strings through the text formats, anything else gives None. */
  function ParseDate(v: Json, p: DateParser): (r: Option<Moment>)
    ensures v.Null? || v.Arr? || v.Obj? ==> r.None?
    ensures v.Str? ==> r == p.fromText(v.s)
    ensures v.Num? && v.n <= 1000000000000 ==> r == p.fromEpoch(v.n as real)
    ensures v.Num? && v.n > 1000000000000 ==> r == p.fromEpoch(v.n as real / 1000.0)
  {
    match v
    case Null => None
    case Bool(b) => p.fromEpoch(if b then 1.0 else 0.0)
    case Num(n) => p.fromEpoch(EpochSeconds(n as real))
    case Float(r) => p.fromEpoch(EpochSeconds(r))
    case Str(s) => p.fromText(s)
    case Arr(_) => None
    case Obj(_) => None
  }

  /** A calendar day as `(year, month, day)`, compared as a tuple. */
  datatype Day = Day(year: int, month: int, day: int)

  predicate DayLt(a: Day, b: Day)
  {
    a.year < b.year || (a.year == b.year && (a.month < b.month || (a.month == b.month && a.day < b.day)))
  }

  function DayOf(m: Moment): Day
  {
    Day(m.year, m.month, m.day)
  }

  /** The `n`-th anniversary of a day, as a tuple (29 February stays 29 February). */
  function Anniversary(m: Moment, n: int): Day
  {
    Day(m.year + n, m.month, m.day)
  }

  /** The age arithmetic of `_idade_em_anos`: the number of anniversaries of `birth` on or
      before `today`; None when `today` is before the birth day. */
  function AgeInYears(birth: Moment, today: Moment): (r: Option<nat>)
    ensures r.Some? <==> !DayLt(DayOf(today), DayOf(birth))
    ensures r.Some? ==> !DayLt(DayOf(today), Anniversary(birth, r.value))
                        && DayLt(DayOf(today), Anniversary(birth, r.value + 1))
    ensures today.month == birth.month && today.day == birth.day && today.year >= birth.year
            ==> r == Some(today.year - birth.year)
  {
    var before := today.month < birth.month || (today.month == birth.month && today.day < birth.day);
    var anos := if before then today.year - birth.year - 1 else today.year - birth.year;
    if anos >= 0 then Some(anos) else None
  }

  /** `_idade_em_anos(data_nascimento)` with the clock read as `today`. */
  function Idade(birth: Json, p: DateParser, today: Moment): (r: Option<nat>)
    ensures r.Some? <==> ParseDate(birth, p).Some? && !DayLt(DayOf(today), DayOf(ParseDate(birth, p).value))
    ensures r.Some? ==> !DayLt(DayOf(today), Anniversary(ParseDate(birth, p).value, r.value))
                        && DayLt(DayOf(today), Anniversary(ParseDate(birth, p).value, r.value + 1))
  {
    match ParseDate(birth, p)
    case None => None
    case Some(dt) => AgeInYears(dt, today)
  }

  /** `_esta_fora_do_horario`: outside 08:00–18:59. */
  function ForaDoHorario(dt: Moment): (r: bool)
    ensures !r <==> 8 <= dt.hour < 19
  {
    dt.hour >= 19 || dt.hour < 8
  }

  /** The boundary hours: 19:00 and 07:59 are after hours, 08:00 and 18:59 are not. */
  lemma ForaDoHorarioBoundaries()
    ensures ForaDoHorario(DateTime(2024, 5, 1, 19)) && ForaDoHorario(DateTime(2024, 5, 1, 7))
    ensures !ForaDoHorario(DateTime(2024, 5, 1, 8)) && !ForaDoHorario(DateTime(2024, 5, 1, 18))
  {
  }

  // ---------------------------------------------------------------------------
  // Histogram keys: strftime("%H:00") and strftime("%Y-%m-%d")

  /** A zero-padded two-digit field. */
  function TwoDigits(n: nat): (r: string)
    requires n < 100
    ensures |r| == 2 && IsDigit(r[0]) && IsDigit(r[1])
  {
    [('0' as int + n / 10) as char, ('0' as int + n % 10) as char]
  }

  function HourKey(dt: Moment): string
  {
    TwoDigits(dt.hour) + ":00"
  }

  /** `%Y` is not padded by the C library for years before 1000. */
  function DayKey(dt: Moment): string
  {
    NatToString(dt.year) + "-" + TwoDigits(dt.month) + "-" + TwoDigits(dt.day)
  }

  lemma TwoDigitsOrder(a: nat, b: nat, s: string, t: string)
    requires a < 100 && b < 100
    ensures StrLt(TwoDigits(a) + s, TwoDigits(b) + t) <==> a < b || (a == b && StrLt(s, t))
  {
    var x := TwoDigits(a) + s;
    var y := TwoDigits(b) + t;
    assert x[1..][1..] == s && y[1..][1..] == t;
    assert x[0] == TwoDigits(a)[0] && y[0] == TwoDigits(b)[0];
    assert x[1..][0] == TwoDigits(a)[1] && y[1..][0] == TwoDigits(b)[1];
  }

  lemma DashOrder(s: string, t: string)
    ensures StrLt("-" + s, "-" + t) <==> StrLt(s, t)
  {
    assert ("-" + s)[1..] == s && ("-" + t)[1..] == t;
  }

  lemma FourDigits(y: nat)
    requires 1000 <= y <= 9999
    ensures NatToString(y) == TwoDigits(y / 100) + TwoDigits(y % 100)
  {
    var q1, q2, q3 := y / 10, y / 100, y / 1000;
    assert q1 / 10 == q2 && q2 / 10 == q3 by {
      DivTen(y);
      DivTen(q1);
    }
    assert (y % 100) / 10 == q1 % 10 && (y % 100) % 10 == y % 10 by {
      DivTen(y);
    }
    var s3 := NatToString(q3);
    var s2 := NatToString(q2);
    var s1 := NatToString(q1);
    assert s3 == [('0' as int + q3) as char];
    assert s2 == s3 + [('0' as int + q2 % 10) as char];
    assert s1 == s2 + [('0' as int + q1 % 10) as char];
    assert NatToString(y) == s1 + [('0' as int + y % 10) as char];
  }

  /** Dividing by 10 twice is dividing by 100, and the last two digits split by 10. */
  lemma DivTen(n: nat)
    ensures (n / 10) / 10 == n / 100
    ensures (n % 100) / 10 == (n / 10) % 10 && (n % 100) % 10 == n % 10
  {
  }

  /** Sorting the hour histogram by key sorts it by hour. */
  lemma HourKeyOrder(a: Moment, b: Moment)
    ensures StrLt(HourKey(a), HourKey(b)) <==> a.hour < b.hour
  {
    TwoDigitsOrder(a.hour, b.hour, ":00", ":00");
    StrLtIrreflexive(":00");
  }

  /** The `-MM-DD` tail of a day key. */
  function MonthDayKey(dt: Moment): string
  {
    "-" + (TwoDigits(dt.month) + ("-" + TwoDigits(dt.day)))
  }

  lemma DayKeyShape(dt: Moment)
    requires dt.year >= 1000
    ensures DayKey(dt) == TwoDigits(dt.year / 100) + (TwoDigits(dt.year % 100) + MonthDayKey(dt))
  {
    FourDigits(dt.year);
  }

  lemma MonthDayOrder(a: Moment, b: Moment)
    ensures StrLt(MonthDayKey(a), MonthDayKey(b)) <==> a.month < b.month || (a.month == b.month && a.day < b.day)
  {
    var ta := "-" + TwoDigits(a.day);
    var tb := "-" + TwoDigits(b.day);
    DashOrder(TwoDigits(a.month) + ta, TwoDigits(b.month) + tb);
    TwoDigitsOrder(a.month, b.month, ta, tb);
    DashOrder(TwoDigits(a.day), TwoDigits(b.day));
    assert TwoDigits(a.day) == TwoDigits(a.day) + [] && TwoDigits(b.day) == TwoDigits(b.day) + [];
    TwoDigitsOrder(a.day, b.day, [], []);
  }

  /** For four-digit years, sorting the day histograms by key sorts them by date. */
  lemma DayKeyOrder(a: Moment, b: Moment)
    requires a.year >= 1000 && b.year >= 1000
    ensures StrLt(DayKey(a), DayKey(b)) <==> DayLt(DayOf(a), DayOf(b))
  {
    DayKeyShape(a);
    DayKeyShape(b);
    var ma := MonthDayKey(a);
    var mb := MonthDayKey(b);
    TwoDigitsOrder(a.year / 100, b.year / 100, TwoDigits(a.year % 100) + ma, TwoDigits(b.year % 100) + mb);
    TwoDigitsOrder(a.year % 100, b.year % 100, ma, mb);
    MonthDayOrder(a, b);
  }

  // ---------------------------------------------------------------------------
  // Per-record extraction

  /** `item.get("dataCollectFromUser")` when it is a dict, else `{}`. */
  function DataCollectOf(f: Fields): Fields
  {
    match GetOrNull(f, Optimizer.DataCollectKey)
    case Obj(d) => d
    case _ => []
  }

  /** `s[:2]`. */
  function Take2(s: string): (r: string)
    ensures |r| == if |s| < 2 then |s| else 2
    ensures r == s[..|r|]
  {
    if |s| <= 2 then s else s[..2]
  }

  /** `_extrair_estado`: the state of `dataCollectFromUser`, stripped, upper-cased and cut
      to two characters; None for a missing, non-string or blank state. */
  function ExtrairEstado(f: Fields): (r: Option<string>)
    ensures r.Some? <==> GetOrNull(DataCollectOf(f), "state").Str?
                         && exists i :: 0 <= i < |GetOrNull(DataCollectOf(f), "state").s|
                                        && !IsSpace(GetOrNull(DataCollectOf(f), "state").s[i])
    ensures r.Some? ==> var u := Upper(Strip(GetOrNull(DataCollectOf(f), "state").s));
                        1 <= |r.value| <= 2 && |r.value| <= |u| && r.value == u[..|r.value|]
                        && r.value == Take2(u)
  {
    match GetOrNull(DataCollectOf(f), "state")
    case Str(s) => if Strip(s) == [] then None else Some(Take2(Upper(Strip(s))))
    case _ => None
  }

  /** `_extrair_data_atendimento`: the parsed `createdAt`. */
  function ExtrairDataAtendimento(f: Fields, p: DateParser): (r: Option<Moment>)
    ensures !HasKey(f, "createdAt") ==> r.None?
    ensures r.Some? ==> var c := GetOrNull(f, "createdAt"); c.Str? || c.Num? || c.Float? || c.Bool?
    ensures GetOrNull(f, "createdAt").Str? ==> r == p.fromText(GetOrNull(f, "createdAt").s)
  {
    ParseDate(GetOrNull(f, "createdAt"), p)
  }

  /** The number of entries that are dicts whose `sender` is exactly `"agent"`. */
  function AgentEntries(es: seq<Json>): (r: nat)
    ensures r <= |es|
  {
    if es == [] then 0
    else (if es[0].Obj? && GetOrNull(es[0].fields, "sender") == Str("agent") then 1 else 0) + AgentEntries(es[1..])
  }

  /** `_contar_mensagens_agente`. */
  function ContarMensagensAgente(f: Fields): (r: nat)
    ensures !GetOrNull(f, Optimizer.ConversationKey).Arr? ==> r == 0
    ensures GetOrNull(f, Optimizer.ConversationKey).Arr? ==> r <= |GetOrNull(f, Optimizer.ConversationKey).items|
  {
    match GetOrNull(f, Optimizer.ConversationKey)
    case Arr(es) => AgentEntries(es)
    case _ => 0
  }

  /** `_mensagens_lia_item`: `int(botMessageCount)` when it is a number (a `bool`
      included) at least 0, the conversation count otherwise. */
  function MensagensLiaItem(f: Fields): (r: nat)
    ensures GetOrNull(f, "botMessageCount").Num? && GetOrNull(f, "botMessageCount").n >= 0
            ==> r == GetOrNull(f, "botMessageCount").n
    ensures GetOrNull(f, "botMessageCount").Float? && GetOrNull(f, "botMessageCount").r >= 0.0
            ==> r as real <= GetOrNull(f, "botMessageCount").r < r as real + 1.0
    ensures !(GetOrNull(f, "botMessageCount").Num? && GetOrNull(f, "botMessageCount").n >= 0)
            && !(GetOrNull(f, "botMessageCount").Float? && GetOrNull(f, "botMessageCount").r >= 0.0)
            && !GetOrNull(f, "botMessageCount").Bool?
            ==> r == ContarMensagensAgente(f)
    ensures GetOrNull(f, "botMessageCount").Bool? ==> r == if GetOrNull(f, "botMessageCount").b then 1 else 0
  {
    match GetOrNull(f, "botMessageCount")
    case Num(n) => if n >= 0 then n else ContarMensagensAgente(f)
    case Float(x) => if x >= 0.0 then x.Floor else ContarMensagensAgente(f)
    case Bool(b) => if b then 1 else 0
    case _ => ContarMensagensAgente(f)
  }

  /** On an optimized conversation the fallback count is the number of entries whose raw
      sender `_normalize_sender` recognised as the agent. */
  lemma {:induction false} AgentEntriesAfterNormalize(es: seq<Json>)
    ensures AgentEntries(Optimizer.NormalizedEntries(es)) == RecognisedAgents(es)
  {
    if es != [] {
      AgentEntriesAfterNormalize(es[1..]);
      assert Optimizer.NormalizedEntries(es)[1..] == Optimizer.NormalizedEntries(es[1..]);
    }
  }

  /** The raw entries with a sender that `_normalize_sender` maps to `"agent"`. */
  function RecognisedAgents(es: seq<Json>): nat
  {
    if es == [] then 0
    else
      var e := es[0];
      (if e.Obj? && HasKey(e.fields, "sender") && Optimizer.NormalizeSender(GetOrNull(e.fields, "sender")) == "agent"
       then 1 else 0) + RecognisedAgents(es[1..])
  }

  // ---------------------------------------------------------------------------
  // Age bands

  const AgeBands: seq<string> := ["0-17", "18-24", "25-34", "35-44", "45-54", "55+"]

  /** The youngest age of each band. */
  const BandFloor: seq<nat> := [0, 18, 25, 35, 45, 55]

  /** The band an age falls in: the one whose range holds it. */
  function AgeBand(age: nat): (i: nat)
    ensures i < 6 && BandFloor[i] <= age
    ensures i < 5 ==> age < BandFloor[i + 1]
  {
    if age < 18 then 0
    else if age <= 24 then 1
    else if age <= 34 then 2
    else if age <= 44 then 3
    else if age <= 54 then 4
    else 5
  }

  /** No age is in two bands. */
  lemma AgeBandUnique(age: nat, j: nat)
    requires j < 6 && BandFloor[j] <= age && (j < 5 ==> age < BandFloor[j + 1])
    ensures AgeBand(age) == j
  {
  }

  /** The band loop from the point where `bands` holds the counts so far. */
  function BandsFrom(bands: seq<nat>, rest: seq<nat>): seq<nat>
    requires |bands| == 6
    decreases |rest|
  {
    if rest == [] then bands
    else
      var b := AgeBand(rest[0]);
      BandsFrom(bands[b := bands[b] + 1], rest[1..])
  }

  function Sum(s: seq<nat>): nat
  {
    if s == [] then 0 else s[0] + Sum(s[1..])
  }

  /** The number of ages under `n`. */
  function CountBelow(ages: seq<nat>, n: nat): (r: nat)
    ensures r <= |ages|
  {
    if ages == [] then 0 else (if ages[0] < n then 1 else 0) + CountBelow(ages[1..], n)
  }

  lemma {:induction false} SumBump(s: seq<nat>, b: nat)
    requires b < |s|
    ensures Sum(s[b := s[b] + 1]) == Sum(s) + 1
  {
    if b > 0 {
      assert s[b := s[b] + 1][1..] == s[1..][b - 1 := s[b] + 1];
      SumBump(s[1..], b - 1);
    } else {
      assert s[b := s[b] + 1][1..] == s[1..];
    }
  }

  /** The number of ages in band `i`. */
  function InBand(ages: seq<nat>, i: nat): (r: nat)
    ensures r <= |ages|
  {
    if ages == [] then 0 else (if AgeBand(ages[0]) == i then 1 else 0) + InBand(ages[1..], i)
  }

  /** Each band grows by the number of ages that fall in it. */
  lemma {:induction false} BandsFromPerBand(bands: seq<nat>, rest: seq<nat>)
    requires |bands| == 6
    ensures |BandsFrom(bands, rest)| == 6
    ensures forall i :: 0 <= i < 6 ==> BandsFrom(bands, rest)[i] == bands[i] + InBand(rest, i)
    decreases |rest|
  {
    if rest != [] {
      var b := AgeBand(rest[0]);
      BandsFromPerBand(bands[b := bands[b] + 1], rest[1..]);
    }
  }

  /** Every age lands in exactly one band: the bands grow by the number of ages, and the
      `0-17` band by the number of minors. */
  lemma {:induction false} BandsFromCounts(bands: seq<nat>, rest: seq<nat>)
    requires |bands| == 6
    ensures |BandsFrom(bands, rest)| == 6
    ensures Sum(BandsFrom(bands, rest)) == Sum(bands) + |rest|
    ensures BandsFrom(bands, rest)[0] == bands[0] + CountBelow(rest, 18)
    decreases |rest|
  {
    if rest != [] {
      var b := AgeBand(rest[0]);
      SumBump(bands, b);
      BandsFromCounts(bands[b := bands[b] + 1], rest[1..]);
    }
  }

  // ---------------------------------------------------------------------------
  // The record loop of build_visao_geral

  /** The accumulators of the first loop. */
  datatype Tally = Tally(
    lia: nat,
    states: Counter,
    ages: seq<nat>,
    minors: nat,
    afterHours: nat,
    byHour: Counter,
    byDay: Counter,
    cohort: Counter)

  const NoTally := Tally(0, [], [], 0, 0, [], [], [])

  /** The state histogram step of the loop body. */
  function CountState(t: Tally, f: Fields): Tally
  {
    match ExtrairEstado(f)
    case Some(s) => t.(states := Inc(t.states, s))
    case None => t
  }

  /** The age step: a valid age is recorded, and counted as a minor under 18. */
  function CountAge(t: Tally, f: Fields, p: DateParser, today: Moment): Tally
  {
    match Idade(GetOrNull(DataCollectOf(f), "birthDate"), p, today)
    case Some(age) => t.(ages := t.ages + [age], minors := if age < 18 then t.minors + 1 else t.minors)
    case None => t
  }

  /** The date step: after-hours count and the three date histograms. */
  function CountDate(t: Tally, f: Fields, p: DateParser): Tally
  {
    match ExtrairDataAtendimento(f, p)
    case Some(dt) =>
      t.(afterHours := if ForaDoHorario(dt) then t.afterHours + 1 else t.afterHours,
         byHour := Inc(t.byHour, HourKey(dt)),
         byDay := Inc(t.byDay, DayKey(dt)),
         cohort := Inc(t.cohort, DayKey(dt)))
    case None => t
  }

  /** The LIA step: the record's messages are added to the total. */
  function CountLia(t: Tally, f: Fields): Tally
  {
    t.(lia := t.lia + MensagensLiaItem(f))
  }

  /** A record's LIA messages, state and age steps. */
  function TallyUndated(t: Tally, f: Fields, p: DateParser, today: Moment): Tally
  {
    CountAge(CountState(CountLia(t, f), f), f, p, today)
  }

  /** One record: the LIA messages, then the state, age and date steps. */
  function TallyRecord(t: Tally, f: Fields, p: DateParser, today: Moment): Tally
  {
    CountDate(TallyUndated(t, f, p, today), f, p)
  }

  /** One pass of the loop body; non-dict items are skipped. */
  function TallyItem(t: Tally, item: Json, p: DateParser, today: Moment): Tally
  {
    if item.Obj? then TallyRecord(t, item.fields, p, today) else t
  }

  function TallyFrom(t: Tally, rest: seq<Json>, p: DateParser, today: Moment): Tally
    decreases |rest|
  {
    if rest == [] then t else TallyFrom(TallyItem(t, rest[0], p, today), rest[1..], p, today)
  }

  // Reference counts over the records, one per counter.

  function LiaSum(items: seq<Json>): nat
  {
    if items == [] then 0
    else (if items[0].Obj? then MensagensLiaItem(items[0].fields) else 0) + LiaSum(items[1..])
  }

  function StatedCount(items: seq<Json>): nat
  {
    if items == [] then 0
    else (if items[0].Obj? && ExtrairEstado(items[0].fields).Some? then 1 else 0) + StatedCount(items[1..])
  }

  function AgedCount(items: seq<Json>, p: DateParser, today: Moment): nat
  {
    if items == [] then 0
    else (if items[0].Obj? && Idade(GetOrNull(DataCollectOf(items[0].fields), "birthDate"), p, today).Some? then 1 else 0)
         + AgedCount(items[1..], p, today)
  }

  function DatedCount(items: seq<Json>, p: DateParser): nat
  {
    if items == [] then 0
    else (if items[0].Obj? && ExtrairDataAtendimento(items[0].fields, p).Some? then 1 else 0) + DatedCount(items[1..], p)
  }

  function AfterHoursCount(items: seq<Json>, p: DateParser): (r: nat)
    ensures r <= DatedCount(items, p)
  {
    if items == [] then 0
    else (if items[0].Obj? && ExtrairDataAtendimento(items[0].fields, p).Some?
             && ForaDoHorario(ExtrairDataAtendimento(items[0].fields, p).value) then 1 else 0)
         + AfterHoursCount(items[1..], p)
  }

  /** The number of dict records whose extracted state is `st`. */
  function StateCount(items: seq<Json>, st: string): (r: nat)
    ensures r <= StatedCount(items)
  {
    if items == [] then 0
    else (if items[0].Obj? && ExtrairEstado(items[0].fields) == Some(st) then 1 else 0) + StateCount(items[1..], st)
  }

  /** The number of dict records dated within the hour whose key is `h`. */
  function HourCount(items: seq<Json>, p: DateParser, h: string): (r: nat)
    ensures r <= DatedCount(items, p)
  {
    if items == [] then 0
    else (if items[0].Obj? && ExtrairDataAtendimento(items[0].fields, p).Some?
             && HourKey(ExtrairDataAtendimento(items[0].fields, p).value) == h then 1 else 0)
         + HourCount(items[1..], p, h)
  }

  /** The number of dict records dated on the day whose key is `d`. */
  function DayCount(items: seq<Json>, p: DateParser, d: string): (r: nat)
    ensures r <= DatedCount(items, p)
  {
    if items == [] then 0
    else (if items[0].Obj? && ExtrairDataAtendimento(items[0].fields, p).Some?
             && DayKey(ExtrairDataAtendimento(items[0].fields, p).value) == d then 1 else 0)
         + DayCount(items[1..], p, d)
  }

  /** The age of one item: a dict record's valid `birthDate`, if any. */
  function ItemAge(item: Json, p: DateParser, today: Moment): Option<nat>
  {
    if item.Obj? then Idade(GetOrNull(DataCollectOf(item.fields), "birthDate"), p, today) else None
  }

  function AgeList(age: Option<nat>): seq<nat>
  {
    if age.Some? then [age.value] else []
  }

  /** The valid ages of the dict records, in record order. */
  function AgesOf(items: seq<Json>, p: DateParser, today: Moment): (r: seq<nat>)
    ensures |r| == AgedCount(items, p, today)
  {
    if items == [] then [] else AgeList(ItemAge(items[0], p, today)) + AgesOf(items[1..], p, today)
  }

  /** One item moves each counter by its own term of the reference counts. */
  lemma TallyItemCounts(t: Tally, item: Json, p: DateParser, today: Moment)
    ensures var r := TallyItem(t, item, p, today);
            r.lia == t.lia + (if item.Obj? then MensagensLiaItem(item.fields) else 0)
            && Total(r.states) == Total(t.states) + (if item.Obj? && ExtrairEstado(item.fields).Some? then 1 else 0)
            && |r.ages| == |t.ages|
                 + (if item.Obj? && Idade(GetOrNull(DataCollectOf(item.fields), "birthDate"), p, today).Some? then 1 else 0)
            && Total(r.byHour) == Total(t.byHour) + (if item.Obj? && ExtrairDataAtendimento(item.fields, p).Some? then 1 else 0)
            && Total(r.byDay) == Total(t.byDay) + (if item.Obj? && ExtrairDataAtendimento(item.fields, p).Some? then 1 else 0)
            && r.afterHours == t.afterHours + (if item.Obj? && ExtrairDataAtendimento(item.fields, p).Some?
                                                  && ForaDoHorario(ExtrairDataAtendimento(item.fields, p).value) then 1 else 0)
  {
    if item.Obj? {
      var f := item.fields;
      var t0 := CountLia(t, f);
      var t2 := CountAge(CountState(t0, f), f, p, today);
      assert TallyRecord(t, f, p, today) == CountDate(t2, f, p);
    }
  }

  /** Each counter grows by exactly what its reference count says. */
  lemma {:induction false} TallyFromCounts(t: Tally, rest: seq<Json>, p: DateParser, today: Moment)
    ensures var r := TallyFrom(t, rest, p, today);
            r.lia == t.lia + LiaSum(rest)
            && Total(r.states) == Total(t.states) + StatedCount(rest)
            && |r.ages| == |t.ages| + AgedCount(rest, p, today)
            && Total(r.byHour) == Total(t.byHour) + DatedCount(rest, p)
            && Total(r.byDay) == Total(t.byDay) + DatedCount(rest, p)
            && r.afterHours == t.afterHours + AfterHoursCount(rest, p)
    decreases |rest|
  {
    if rest != [] {
      TallyItemCounts(t, rest[0], p, today);
      TallyFromCounts(TallyItem(t, rest[0], p, today), rest[1..], p, today);
    }
  }

  /** The state step counts a record under its own state and under no other key. */
  lemma CountStateKey(t: Tally, f: Fields, k: string)
    ensures Count(CountState(t, f).states, k) == Count(t.states, k) + (if ExtrairEstado(f) == Some(k) then 1 else 0)
  {
    if ExtrairEstado(f).Some? {
      IncOthers(t.states, ExtrairEstado(f).value);
    }
  }

  /** The date step counts a record under its own hour and day and under no other key. */
  lemma CountDateKey(t: Tally, f: Fields, p: DateParser, k: string)
    ensures var r := CountDate(t, f, p);
            var d := ExtrairDataAtendimento(f, p);
            Count(r.byHour, k) == Count(t.byHour, k) + (if d.Some? && HourKey(d.value) == k then 1 else 0)
            && Count(r.byDay, k) == Count(t.byDay, k) + (if d.Some? && DayKey(d.value) == k then 1 else 0)
  {
    var d := ExtrairDataAtendimento(f, p);
    if d.Some? {
      IncOthers(t.byHour, HourKey(d.value));
      IncOthers(t.byDay, DayKey(d.value));
    }
  }

  /** One item moves the count under each key by its own term. */
  lemma TallyItemKeys(t: Tally, item: Json, p: DateParser, today: Moment, k: string)
    ensures var r := TallyItem(t, item, p, today);
            Count(r.states, k) == Count(t.states, k) + (if item.Obj? && ExtrairEstado(item.fields) == Some(k) then 1 else 0)
            && Count(r.byHour, k) == Count(t.byHour, k)
               + (if item.Obj? && ExtrairDataAtendimento(item.fields, p).Some?
                     && HourKey(ExtrairDataAtendimento(item.fields, p).value) == k then 1 else 0)
            && Count(r.byDay, k) == Count(t.byDay, k)
               + (if item.Obj? && ExtrairDataAtendimento(item.fields, p).Some?
                     && DayKey(ExtrairDataAtendimento(item.fields, p).value) == k then 1 else 0)
  {
    if item.Obj? {
      var f := item.fields;
      var t2 := CountAge(CountState(CountLia(t, f), f), f, p, today);
      CountStateKey(CountLia(t, f), f, k);
      CountDateKey(t2, f, p, k);
      assert TallyRecord(t, f, p, today) == CountDate(t2, f, p);
    }
  }

  /** One item appends its valid age, if any, to the ages. */
  lemma TallyItemAges(t: Tally, item: Json, p: DateParser, today: Moment)
    ensures TallyItem(t, item, p, today).ages == t.ages + AgeList(ItemAge(item, p, today))
  {
    if item.Obj? {
      var f := item.fields;
      var t2 := CountAge(CountState(CountLia(t, f), f), f, p, today);
      assert TallyRecord(t, f, p, today) == CountDate(t2, f, p);
    }
  }

  /** Over the loop, the count under every key is the number of records counted under it. */
  lemma {:induction false} TallyFromKeys(t: Tally, rest: seq<Json>, p: DateParser, today: Moment, k: string)
    ensures var r := TallyFrom(t, rest, p, today);
            Count(r.states, k) == Count(t.states, k) + StateCount(rest, k)
            && Count(r.byHour, k) == Count(t.byHour, k) + HourCount(rest, p, k)
            && Count(r.byDay, k) == Count(t.byDay, k) + DayCount(rest, p, k)
    decreases |rest|
  {
    if rest != [] {
      TallyItemKeys(t, rest[0], p, today, k);
      TallyFromKeys(TallyItem(t, rest[0], p, today), rest[1..], p, today, k);
    }
  }

  /** Over the loop, the ages are appended in record order. */
  lemma {:induction false} TallyFromAges(t: Tally, rest: seq<Json>, p: DateParser, today: Moment)
    ensures TallyFrom(t, rest, p, today).ages == t.ages + AgesOf(rest, p, today)
    decreases |rest|
  {
    if rest != [] {
      var t1 := TallyItem(t, rest[0], p, today);
      var head := AgeList(ItemAge(rest[0], p, today));
      var tail := AgesOf(rest[1..], p, today);
      assert AgesOf(rest, p, today) == head + tail;
      TallyItemAges(t, rest[0], p, today);
      assert t1.ages == t.ages + head;
      TallyFromAges(t1, rest[1..], p, today);
      assert TallyFrom(t, rest, p, today) == TallyFrom(t1, rest[1..], p, today);
      assert (t.ages + head) + tail == t.ages + (head + tail);
    }
  }

  /** What the loop keeps true: volume and cohort agree, `menores_de_18` counts the ages
      under 18, the after-hours count never exceeds the dated records, and every histogram
      has distinct keys with positive counts. */
  predicate TallyInvariant(t: Tally)
  {
    t.byDay == t.cohort
    && t.minors == CountBelow(t.ages, 18)
    && t.afterHours <= Total(t.byHour)
    && DistinctKeys(t.states) && DistinctKeys(t.byHour) && DistinctKeys(t.byDay)
    && AllPositive(t.states) && AllPositive(t.byHour) && AllPositive(t.byDay)
  }

  lemma CountBelowAppend(ages: seq<nat>, a: nat, n: nat)
    ensures CountBelow(ages + [a], n) == CountBelow(ages, n) + (if a < n then 1 else 0)
  {
    if ages != [] {
      assert (ages + [a])[1..] == ages[1..] + [a];
    } else {
      assert ([] + [a])[1..] == [];
    }
  }

  lemma CountAgeInvariant(t: Tally, f: Fields, p: DateParser, today: Moment)
    requires TallyInvariant(t)
    ensures TallyInvariant(CountAge(t, f, p, today))
  {
    match Idade(GetOrNull(DataCollectOf(f), "birthDate"), p, today)
    case Some(age) => CountBelowAppend(t.ages, age, 18);
    case None =>
  }

  lemma CountLiaInvariant(t: Tally, f: Fields)
    requires TallyInvariant(t)
    ensures TallyInvariant(CountLia(t, f))
  {
  }

  lemma CountStateInvariant(t: Tally, f: Fields)
    requires TallyInvariant(t)
    ensures TallyInvariant(CountState(t, f))
  {
  }

  lemma CountDateInvariant(t: Tally, f: Fields, p: DateParser)
    requires TallyInvariant(t)
    ensures TallyInvariant(CountDate(t, f, p))
  {
  }

  /** The last step of a record, stated on `TallyRecord` itself. */
  lemma TallyRecordLastStep(t: Tally, f: Fields, p: DateParser, today: Moment)
    requires TallyInvariant(TallyUndated(t, f, p, today))
    ensures TallyInvariant(TallyRecord(t, f, p, today))
  {
    CountDateInvariant(TallyUndated(t, f, p, today), f, p);
  }

  lemma TallyRecordInvariant(t: Tally, f: Fields, p: DateParser, today: Moment)
    requires TallyInvariant(t)
    ensures TallyInvariant(TallyRecord(t, f, p, today))
  {
    var t0 := CountLia(t, f);
    CountLiaInvariant(t, f);
    CountStateInvariant(t0, f);
    CountAgeInvariant(CountState(t0, f), f, p, today);
    TallyRecordLastStep(t, f, p, today);
  }

  lemma TallyItemInvariant(t: Tally, item: Json, p: DateParser, today: Moment)
    requires TallyInvariant(t)
    ensures TallyInvariant(TallyItem(t, item, p, today))
  {
    if item.Obj? {
      TallyRecordInvariant(t, item.fields, p, today);
    }
  }

  lemma {:induction false} TallyFromInvariant(t: Tally, rest: seq<Json>, p: DateParser, today: Moment)
    requires TallyInvariant(t)
    ensures TallyInvariant(TallyFrom(t, rest, p, today))
    decreases |rest|
  {
    if rest != [] {
      TallyItemInvariant(t, rest[0], p, today);
      TallyFromInvariant(TallyItem(t, rest[0], p, today), rest[1..], p, today);
    }
  }

  // ---------------------------------------------------------------------------
  // The page

  /** Everything `build_visao_geral` computes before rendering. */
  datatype Overview = Overview(total: nat, tally: Tally, bands: seq<nat>)

  function OverviewOf(optimized: Fields, p: DateParser, today: Moment): Overview
  {
    var data := Optimizer.RecordsOf(optimized);
    var t := TallyFrom(NoTally, data, p, today);
    Overview(|data|, t, BandsFrom([0, 0, 0, 0, 0, 0], t.ages))
  }

  /** `round(part / total * 100, 2) if total else 0`, without the rounding. */
  function Percent(part: nat, total: nat): (r: Json)
    ensures total == 0 ==> r == Num(0)
    ensures total > 0 ==> r.Float? && r.r * total as real == part as real * 100.0
  {
    if total == 0 then Num(0) else Float(part as real * 100.0 / total as real)
  }

  /** A histogram as a JSON object, entries in the counter's order. */
  function CounterJson(c: Counter): (r: Json)
    ensures r.Obj? && |r.fields| == |c|
    ensures forall i :: 0 <= i < |c| ==> r.fields[i] == (c[i].0, Num(c[i].1))
  {
    Obj(seq(|c|, i requires 0 <= i < |c| => (c[i].0, Num(c[i].1))))
  }

  function BandsJson(bands: seq<nat>): (r: Json)
    requires |bands| == 6
    ensures r.Obj? && |r.fields| == 6
    ensures forall i :: 0 <= i < 6 ==> r.fields[i] == (AgeBands[i], Num(bands[i]))
  {
    Obj(seq(6, i requires 0 <= i < 6 => (AgeBands[i], Num(bands[i]))))
  }

  /** The six fields that need external data, always null. */
  const Placeholders: seq<string> :=
    ["compras_confirmadas", "ticket_medio", "leads_qualificados", "agendamentos", "taxa_conversao", "efetividade_lia"]

  /** The page as `build_visao_geral` returns it. */
  function RenderOverview(o: Overview): (r: Json)
    requires |o.bands| == 6
    ensures r.Obj? && |r.fields| == 17
    ensures forall i :: 0 <= i < 6 ==> r.fields[11 + i] == (Placeholders[i], Null)
  {
    Obj([
      ("total_conversas", Num(o.total)),
      ("mensagens_lia", Num(o.tally.lia)),
      ("distribuicao_por_estado", CounterJson(o.tally.states)),
      ("faixa_etaria", BandsJson(o.bands)),
      ("menores_de_18", Num(o.tally.minors)),
      ("percentual_menores_18", Percent(o.tally.minors, o.total)),
      ("fora_do_horario_count", Num(o.tally.afterHours)),
      ("fora_do_horario_percent", Percent(o.tally.afterHours, o.total)),
      ("atendimentos_por_hora", CounterJson(SortedByKey(o.tally.byHour))),
      ("volume_conversas_por_dia", CounterJson(SortedByKey(o.tally.byDay))),
      ("cohort_por_dia", CounterJson(SortedByKey(o.tally.cohort)))
    ] + seq(6, i requires 0 <= i < 6 => (Placeholders[i], Null)))
  }

  function VisaoGeral(optimized: Fields, p: DateParser, today: Moment): (r: Json)
    ensures r.Obj? && |r.fields| == 17
    ensures var data := Optimizer.RecordsOf(optimized);
            r.fields[0] == ("total_conversas", Num(|data|))
            && r.fields[1] == ("mensagens_lia", Num(LiaSum(data)))
            && r.fields[6] == ("fora_do_horario_count", Num(AfterHoursCount(data, p)))
  {
    var o := OverviewOf(optimized, p, today);
    BandsFromCounts([0, 0, 0, 0, 0, 0], o.tally.ages);
    OverviewFacts(optimized, p, today);
    RenderOverview(o)
  }

  /** What the page promises: `total_conversas` counts every item of a list `data`
      (non-dicts included) and is 0 otherwise; the bands cover every valid age once and
      `0-17` equals `menores_de_18`; each histogram total is the number of records it
      counts; volume and cohort agree; `fora_do_horario_count` is the number of records
      dated after hours, never more than the dated records. */
  lemma OverviewFacts(optimized: Fields, p: DateParser, today: Moment)
    ensures var o := OverviewOf(optimized, p, today);
            var data := Optimizer.RecordsOf(optimized);
            o.total == |data|
            && (!Optimizer.DataIsList(optimized) ==> o.total == 0)
            && o.tally.lia == LiaSum(data)
            && Total(o.tally.states) == StatedCount(data)
            && |o.tally.ages| == AgedCount(data, p, today)
            && |o.bands| == 6 && Sum(o.bands) == |o.tally.ages|
            && o.bands[0] == o.tally.minors
            && Total(o.tally.byHour) == DatedCount(data, p)
            && Total(o.tally.byDay) == DatedCount(data, p)
            && o.tally.byDay == o.tally.cohort
            && o.tally.afterHours == AfterHoursCount(data, p)
            && AfterHoursCount(data, p) <= DatedCount(data, p)
  {
    var data := Optimizer.RecordsOf(optimized);
    var t := TallyFrom(NoTally, data, p, today);
    TallyFromCounts(NoTally, data, p, today);
    TallyFromInvariant(NoTally, data, p, today);
    BandsFromCounts([0, 0, 0, 0, 0, 0], t.ages);
  }

  /** Over all the records, every histogram holds under each key the number of records
      counted under it, and the ages are those of the records in order. */
  lemma TallyHistograms(data: seq<Json>, p: DateParser, today: Moment)
    ensures var t := TallyFrom(NoTally, data, p, today);
            (forall k :: Count(t.states, k) == StateCount(data, k))
            && (forall k :: Count(t.byHour, k) == HourCount(data, p, k))
            && (forall k :: Count(t.byDay, k) == DayCount(data, p, k))
            && (forall k :: Count(t.cohort, k) == DayCount(data, p, k))
            && t.ages == AgesOf(data, p, today)
  {
    var t := TallyFrom(NoTally, data, p, today);
    forall k
      ensures Count(t.states, k) == StateCount(data, k)
      ensures Count(t.byHour, k) == HourCount(data, p, k)
      ensures Count(t.byDay, k) == DayCount(data, p, k)
    {
      TallyFromKeys(NoTally, data, p, today, k);
    }
    TallyFromInvariant(NoTally, data, p, today);
    assert t.byDay == t.cohort;
    TallyFromAges(NoTally, data, p, today);
    assert [] + AgesOf(data, p, today) == AgesOf(data, p, today);
  }

  /** The histograms count every record under its own key: the state, hour and day
      histograms hold, under each key, the number of dict records whose state, `%H:00` or
      `%Y-%m-%d` is that key. The ages are those of the dict records in order, and band i
      holds the number of them that fall in it. */
  lemma OverviewHistograms(optimized: Fields, p: DateParser, today: Moment)
    ensures var o := OverviewOf(optimized, p, today);
            var data := Optimizer.RecordsOf(optimized);
            (forall k :: Count(o.tally.states, k) == StateCount(data, k))
            && (forall k :: Count(o.tally.byHour, k) == HourCount(data, p, k))
            && (forall k :: Count(o.tally.byDay, k) == DayCount(data, p, k))
            && (forall k :: Count(o.tally.cohort, k) == DayCount(data, p, k))
            && o.tally.ages == AgesOf(data, p, today)
            && |o.bands| == 6
            && forall i :: 0 <= i < 6 ==> o.bands[i] == InBand(AgesOf(data, p, today), i)
  {
    var data := Optimizer.RecordsOf(optimized);
    var t := TallyFrom(NoTally, data, p, today);
    var o := OverviewOf(optimized, p, today);
    assert o.tally == t && o.bands == BandsFrom([0, 0, 0, 0, 0, 0], t.ages);
    TallyHistograms(data, p, today);
    BandsFromPerBand([0, 0, 0, 0, 0, 0], t.ages);
  }

  /** The hour and day histograms are emitted in ascending key order, which is hour order
      and (for four-digit years) date order. */
  lemma HistogramsAscending(optimized: Fields, p: DateParser, today: Moment)
    ensures var t := OverviewOf(optimized, p, today).tally;
            Ascending(SortedByKey(t.byHour)) && Ascending(SortedByKey(t.byDay))
            && Ascending(SortedByKey(t.cohort))
  {
    var data := Optimizer.RecordsOf(optimized);
    TallyFromInvariant(NoTally, data, p, today);
    var t := TallyFrom(NoTally, data, p, today);
    SortedByKeyAscending(t.byHour);
    SortedByKeyAscending(t.byDay);
  }

  /** With no records both percentages are the integer 0. */
  lemma EmptyPercentages(optimized: Fields, p: DateParser, today: Moment)
    requires Optimizer.RecordsOf(optimized) == []
    ensures var r := VisaoGeral(optimized, p, today).fields;
            r[5] == ("percentual_menores_18", Num(0)) && r[7] == ("fora_do_horario_percent", Num(0))
  {
  }

  // ---------------------------------------------------------------------------
  // The methods

  /** `if estado: distribuicao_por_estado[estado] += 1`. */
  method CountStateStep(t: Tally, f: Fields) returns (r: Tally)
    ensures r == CountState(t, f)
  {
    r := t;
    var estado := ExtrairEstado(f);
    if estado.Some? {
      r := r.(states := Inc(r.states, estado.value));
    }
  }

  /** The age step: `idades.append(idade)`, and `menores_de_18 += 1` under 18. */
  method CountAgeStep(t: Tally, f: Fields, p: DateParser, today: Moment) returns (r: Tally)
    ensures r == CountAge(t, f, p, today)
  {
    r := t;
    var idade := Idade(GetOrNull(DataCollectOf(f), "birthDate"), p, today);
    if idade.Some? {
      r := r.(ages := r.ages + [idade.value]);
      if idade.value < 18 {
        r := r.(minors := r.minors + 1);
      }
    }
  }

  /** The date step: the after-hours count and the three date histograms. */
  method CountDateStep(t: Tally, f: Fields, p: DateParser) returns (r: Tally)
    ensures r == CountDate(t, f, p)
  {
    r := t;
    var dt := ExtrairDataAtendimento(f, p);
    if dt.Some? {
      if ForaDoHorario(dt.value) {
        r := r.(afterHours := r.afterHours + 1);
      }
      r := r.(byHour := Inc(r.byHour, HourKey(dt.value)));
      r := r.(byDay := Inc(r.byDay, DayKey(dt.value)));
      r := r.(cohort := Inc(r.cohort, DayKey(dt.value)));
    }
  }

  /** The body of the record loop of `build_visao_geral` for one item. */
  method CountRecord(t: Tally, item: Json, p: DateParser, today: Moment) returns (r: Tally)
    ensures r == TallyItem(t, item, p, today)
  {
    r := t;
    if !item.Obj? {
      return;
    }
    var f := item.fields;
    r := r.(lia := r.lia + MensagensLiaItem(f));
    ghost var r0 := r;
    r := CountStateStep(r, f);
    ghost var r1 := r;
    r := CountAgeStep(r, f, p, today);
    ghost var r2 := r;
    r := CountDateStep(r, f, p);
    assert r == CountDate(r2, f, p) && r2 == CountAge(r1, f, p, today) && r1 == CountState(r0, f);
  }

  /** `build_visao_geral(optimized)`: the record loop, then the band loop. */
  method BuildVisaoGeral(optimized: Fields, p: DateParser, today: Moment) returns (r: Json)
    ensures r == VisaoGeral(optimized, p, today)
  {
    var data := if Optimizer.DataIsList(optimized) then GetOrNull(optimized, "data").items else [];
    assert data == Optimizer.RecordsOf(optimized);
    var totalConversas := |data|;

    var t := NoTally;
    var i := 0;
    while i < |data|
      invariant 0 <= i <= |data|
      invariant TallyFrom(t, data[i..], p, today) == TallyFrom(NoTally, data, p, today)
    {
      assert data[i..][1..] == data[i + 1..];
      t := CountRecord(t, data[i], p, today);
      i := i + 1;
    }
    assert data[i..] == [];
    var idades := t.ages;

    var faixaEtaria: seq<nat> := [0, 0, 0, 0, 0, 0];
    var j := 0;
    while j < |idades|
      invariant 0 <= j <= |idades| && |faixaEtaria| == 6
      invariant BandsFrom(faixaEtaria, idades[j..]) == BandsFrom([0, 0, 0, 0, 0, 0], idades)
    {
      assert idades[j..][1..] == idades[j + 1..];
      var band := AgeBand(idades[j]);
      faixaEtaria := faixaEtaria[band := faixaEtaria[band] + 1];
      j := j + 1;
    }
    assert idades[j..] == [];
    r := RenderOverview(Overview(totalConversas, t, faixaEtaria));
  }

  /** `build_dashboard_payload`: one key per dashboard page. */
  method BuildDashboardPayload(optimized: Fields, p: DateParser, today: Moment) returns (r: Json)
    ensures r == Obj([("visao_geral", VisaoGeral(optimized, p, today))])
  {
    var visaoGeral := BuildVisaoGeral(optimized, p, today);
    r := Obj([("visao_geral", visaoGeral)]);
  }
}
