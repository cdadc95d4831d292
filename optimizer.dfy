/** The payload optimizer of src/optimizer.py: rewrites one upstream report document
    (Portuguese keys renamed, senders tagged, agent lifted to `meta.agent`, empty
    `agentId` dropped). The source deep-copies its input; with JSON as values here, the
    input is untouched by construction. */
module Optimizer {
  import opened JsonValues

  const DataCollectKey := "dataCollectFromUser"
  const ConversationKey := "Full Conversation"
  const AgentKey := "aiAgent"
  const AgentIdKey := "agentId"

  /** `_DATA_COLLECT_PT_TO_EN`: the Portuguese field names and their English names. */
  const PtToEn: map<string, string> := map[
    "nome completo" := "name",
    "data de nascimento" := "birthDate",
    "cpf" := "cpf",
    "celular" := "phone",
    "e-mail" := "email",
    "cep" := "zipCode",
    "endereço" := "address",
    "número" := "number",
    "cidade" := "city",
    "estado" := "state"
  ]

  /** The name a key ends up under: its English name when it is Portuguese. */
  function Rename(k: string): string
  {
    if k in PtToEn then PtToEn[k] else k
  }

  /** The English names back to the Portuguese ones. */
  const EnToPt: map<string, string> := map[
    "name" := "nome completo",
    "birthDate" := "data de nascimento",
    "cpf" := "cpf",
    "phone" := "celular",
    "email" := "e-mail",
    "zipCode" := "cep",
    "address" := "endereço",
    "number" := "número",
    "city" := "cidade",
    "state" := "estado"
  ]

  /** No two Portuguese names share an English name, and the only English name that is
      itself a Portuguese name is `cpf`, which maps to itself. */
  lemma PtToEnShape()
    ensures forall p :: p in PtToEn ==> PtToEn[p] in EnToPt && EnToPt[PtToEn[p]] == p
    ensures forall p, q :: p in PtToEn && q in PtToEn && PtToEn[p] == PtToEn[q] ==> p == q
    ensures forall p :: p in PtToEn && PtToEn[p] in PtToEn ==> p == "cpf" && PtToEn[p] == "cpf"
  {
    EnToPtInverts();
    OnlyCpfIsBoth();
  }

  lemma EnToPtInverts()
    ensures forall p :: p in PtToEn ==> PtToEn[p] in EnToPt && EnToPt[PtToEn[p]] == p
  {
    forall p | p in PtToEn
      ensures PtToEn[p] in EnToPt && EnToPt[PtToEn[p]] == p
    {
      if p == "nome completo" {} else if p == "data de nascimento" {} else if p == "cpf" {}
      else if p == "celular" {} else if p == "e-mail" {} else if p == "cep" {}
      else if p == "endereço" {} else if p == "número" {} else if p == "cidade" {} else {}
    }
  }

  lemma OnlyCpfIsBoth()
    ensures forall p :: p in PtToEn && PtToEn[p] in PtToEn ==> p == "cpf" && PtToEn[p] == "cpf"
  {
    forall p | p in PtToEn && PtToEn[p] in PtToEn
      ensures p == "cpf"
    {
      if p == "nome completo" {} else if p == "data de nascimento" {} else if p == "cpf" {}
      else if p == "celular" {} else if p == "e-mail" {} else if p == "cep" {}
      else if p == "endereço" {} else if p == "número" {} else if p == "cidade" {} else {}
    }
  }

  // ---------------------------------------------------------------------------
  // _consolidate_data_collect_from_user

  /** What the loop of `_consolidate_data_collect_from_user` returns when it has built
      `out`, recorded the English names of Portuguese keys already written in `seen`,
      and has `rest` still to visit. */
  function ConsolidateFrom(out: Fields, seen: set<string>, rest: Fields): Fields
    decreases |rest|
  {
    if rest == [] then out
    else
      var k := rest[0].0;
      var v := rest[0].1;
      if k in PtToEn then
        if PtToEn[k] !in seen then ConsolidateFrom(Set(out, PtToEn[k], v), seen + {PtToEn[k]}, rest[1..])
        else ConsolidateFrom(out, seen, rest[1..])
      else ConsolidateFrom(Set(out, k, v), seen, rest[1..])
  }

  /** One step of the loop. */
  lemma ConsolidateFromCons(out: Fields, seen: set<string>, rest: Fields)
    requires rest != []
    ensures var (k, v) := rest[0];
            ConsolidateFrom(out, seen, rest)
            == if k !in PtToEn then ConsolidateFrom(Set(out, k, v), seen, rest[1..])
               else if PtToEn[k] in seen then ConsolidateFrom(out, seen, rest[1..])
               else ConsolidateFrom(Set(out, PtToEn[k], v), seen + {PtToEn[k]}, rest[1..])
  {
  }

  function Consolidated(f: Fields): Fields
  {
    ConsolidateFrom([], {}, f)
  }

  /** `_consolidate_data_collect_from_user` on any value: falsy values and non-dicts are
      returned as they are. */
  function ConsolidateValue(v: Json): (r: Json)
    ensures !Truthy(v) || !v.Obj? ==> r == v
    ensures Truthy(v) && v.Obj? && UniqueKeys(v.fields) ==>
              r.Obj? && UniqueKeys(r.fields)
              && (forall k :: HasKey(r.fields, k) ==> !(k in PtToEn && PtToEn[k] != k))
              && forall k :: Get(r.fields, k) == LastGet(Renamed(v.fields), k)
  {
    if !Truthy(v) || !v.Obj? then v
    else
      ConsolidatedOfDict(v.fields);
      Obj(Consolidated(v.fields))
  }

  lemma ConsolidatedOfDict(f: Fields)
    ensures UniqueKeys(f) ==>
              UniqueKeys(Consolidated(f))
              && (forall k :: HasKey(Consolidated(f), k) ==> !(k in PtToEn && PtToEn[k] != k))
              && forall k :: Get(Consolidated(f), k) == LastGet(Renamed(f), k)
  {
    if UniqueKeys(f) {
      ConsolidatedMeaning(f);
    }
  }

  method ConsolidateDataCollectFromUser(obj: Json) returns (r: Json)
    ensures r == ConsolidateValue(obj)
  {
    if !Truthy(obj) || !obj.Obj? {
      return obj;
    }
    var f := obj.fields;
    var out: Fields := [];
    var seen: set<string> := {};
    var i := 0;
    while i < |f|
      invariant 0 <= i <= |f|
      invariant ConsolidateFrom(out, seen, f[i..]) == Consolidated(f)
    {
      assert f[i..][1..] == f[i + 1..];
      var key := f[i].0;
      var value := f[i].1;
      ConsolidateFromCons(out, seen, f[i..]);
      if key in PtToEn {
        var enKey := PtToEn[key];
        if enKey !in seen {
          out := Set(out, enKey, value);
          seen := seen + {enKey};
        }
      } else {
        out := Set(out, key, value);
      }
      i := i + 1;
    }
    assert f[i..] == [];
    r := Obj(out);
  }

  /** The entries with every key renamed, order and values kept. */
  function Renamed(f: Fields): (r: Fields)
    ensures |r| == |f|
    ensures forall k :: HasKey(f, k) ==> HasKey(r, Rename(k))
    ensures forall k :: HasKey(r, k) ==> !(k in PtToEn && PtToEn[k] != k)
  {
    PtToEnShape();
    if f == [] then [] else [(Rename(f[0].0), f[0].1)] + Renamed(f[1..])
  }

  /** On a dict (distinct keys) the `seen` set never skips anything: consolidating is
      assigning every renamed entry in order, `out[rename(k)] = v`. */
  lemma {:induction false} ConsolidateFromIsUpdate(out: Fields, seen: set<string>, rest: Fields)
    requires UniqueKeys(rest)
    requires forall k :: HasKey(rest, k) && k in PtToEn ==> PtToEn[k] !in seen
    ensures ConsolidateFrom(out, seen, rest) == Update(out, Renamed(rest))
    decreases |rest|
  {
    if rest != [] {
      var k := rest[0].0;
      assert Renamed(rest)[0] == (Rename(k), rest[0].1);
      assert Renamed(rest)[1..] == Renamed(rest[1..]);
      if k in PtToEn {
        PtToEnShape();
        var seen' := seen + {PtToEn[k]};
        forall k' | HasKey(rest[1..], k') && k' in PtToEn ensures PtToEn[k'] !in seen' {
          assert HasKey(rest, k');
          assert k' != k;
        }
        ConsolidateFromIsUpdate(Set(out, PtToEn[k], rest[0].1), seen', rest[1..]);
      } else {
        ConsolidateFromIsUpdate(Set(out, k, rest[0].1), seen, rest[1..]);
      }
    }
  }

  /** Consolidation renames every Portuguese key, keeps every other key, leaves no
      Portuguese key behind (other than `cpf`, its own English name), and each name holds
      the value of the LAST entry renamed to it: with both `nome completo` and `name`
      present, the later one wins. */
  lemma ConsolidatedMeaning(f: Fields)
    requires UniqueKeys(f)
    ensures UniqueKeys(Consolidated(f))
    ensures forall k :: HasKey(f, k) ==> HasKey(Consolidated(f), Rename(k))
    ensures forall k :: HasKey(Consolidated(f), k) <==> HasKey(Renamed(f), k)
    ensures forall k :: HasKey(Consolidated(f), k) ==> !(k in PtToEn && PtToEn[k] != k)
    ensures forall k :: Get(Consolidated(f), k) == LastGet(Renamed(f), k)
  {
    ConsolidateFromIsUpdate([], {}, f);
  }

  /** The later of two entries for the same field wins, at the earlier one's position. */
  lemma ConsolidatedLaterWins()
    ensures Consolidated([("nome completo", Str("Ana")), ("name", Str("Anna"))]) == [("name", Str("Anna"))]
    ensures Consolidated([("name", Str("Anna")), ("nome completo", Str("Ana"))]) == [("name", Str("Ana"))]
    ensures Consolidated([("cidade", Str("Recife")), ("idade", Num(30)), ("city", Str("Olinda"))])
         == [("city", Str("Olinda")), ("idade", Num(30))]
  {
    PortugueseThenEnglish();
    EnglishThenPortuguese();
    UnknownKeyKeptInPlace();
  }

  lemma PortugueseThenEnglish()
    ensures Consolidated([("nome completo", Str("Ana")), ("name", Str("Anna"))]) == [("name", Str("Anna"))]
  {
    var a: Fields := [("nome completo", Str("Ana")), ("name", Str("Anna"))];
    assert a[1..][1..] == [];
  }

  lemma EnglishThenPortuguese()
    ensures Consolidated([("name", Str("Anna")), ("nome completo", Str("Ana"))]) == [("name", Str("Ana"))]
  {
    var b: Fields := [("name", Str("Anna")), ("nome completo", Str("Ana"))];
    assert "name" !in PtToEn && PtToEn["nome completo"] == "name";
    assert b[1..][1..] == [];
    ConsolidateFromCons([], {}, b);
    ConsolidateFromCons([("name", Str("Anna"))], {}, b[1..]);
  }

  lemma UnknownKeyKeptInPlace()
    ensures Consolidated([("cidade", Str("Recife")), ("idade", Num(30)), ("city", Str("Olinda"))])
         == [("city", Str("Olinda")), ("idade", Num(30))]
  {
    var c: Fields := [("cidade", Str("Recife")), ("idade", Num(30)), ("city", Str("Olinda"))];
    assert c[1..][1..][1..] == [];
  }

  // ---------------------------------------------------------------------------
  // _normalize_sender

  /** `_normalize_sender`: the two-valued tag that replaces a raw sender. */
  function NormalizeSender(v: Json): (r: string)
    ensures r == "agent" || r == "user"
    ensures r == "agent" <==> v.Arr? && v.items != [] && v.items[0].Obj?
                              && Truthy(GetOrNull(v.items[0].fields, "firstName"))
  {
    if v.Arr? then
      if v.items == [] then "user"
      else
        var first := v.items[0];
        if first.Obj? && Truthy(GetOrNull(first.fields, "firstName")) then "agent" else "user"
    else "user"
  }

  /** Tags are not senders the function recognises: normalizing a tag again, `"agent"`
      included, always gives `"user"`. */
  lemma NormalizeTagIsUser(s: string)
    ensures NormalizeSender(Str(s)) == "user"
    ensures NormalizeSender(Str(NormalizeSender(Arr([Obj([("firstName", Str("Bot"))])])))) == "user"
  {
    assert NormalizeSender(Arr([Obj([("firstName", Str("Bot"))])])) == "agent";
  }

  /** One `Full Conversation` entry after the loop body of `_optimize_conversation_item`. */
  function NormalizeEntry(e: Json): Json
  {
    if e.Obj? && HasKey(e.fields, "sender") then
      Obj(Set(e.fields, "sender", Str(NormalizeSender(GetOrNull(e.fields, "sender")))))
    else e
  }

  function NormalizedEntries(es: seq<Json>): (r: seq<Json>)
    ensures |r| == |es|
    ensures forall i :: 0 <= i < |es| ==> r[i] == NormalizeEntry(es[i])
  {
    seq(|es|, i requires 0 <= i < |es| => NormalizeEntry(es[i]))
  }

  /** The sender loop: every dict entry with a `sender` gets its tag, in place. */
  method NormalizeConversation(entries: seq<Json>) returns (out: seq<Json>)
    ensures out == NormalizedEntries(entries)
  {
    out := entries;
    var i := 0;
    while i < |out|
      invariant 0 <= i <= |out| == |entries|
      invariant forall j :: 0 <= j < i ==> out[j] == NormalizeEntry(entries[j])
      invariant forall j :: i <= j < |out| ==> out[j] == entries[j]
    {
      var entry := out[i];
      if entry.Obj? && HasKey(entry.fields, "sender") {
        out := out[i := Obj(Set(entry.fields, "sender", Str(NormalizeSender(GetOrNull(entry.fields, "sender")))))];
      }
      i := i + 1;
    }
  }

  // ---------------------------------------------------------------------------
  // _optimize_conversation_item

  /** First step of `_optimize_conversation_item`: a truthy `dataCollectFromUser` is
      consolidated; nothing else changes. */
  function ConsolidateStep(f: Fields): (r: Fields)
    ensures Get(r, DataCollectKey) == match Get(f, DataCollectKey)
                                      case Some(v) => Some(ConsolidateValue(v))
                                      case None => None
    ensures forall k :: k != DataCollectKey ==> Get(r, k) == Get(f, k)
    ensures forall k :: HasKey(r, k) <==> HasKey(f, k)
    ensures UniqueKeys(f) ==> UniqueKeys(r)
  {
    if HasKey(f, DataCollectKey) && Truthy(GetOrNull(f, DataCollectKey))
    then Set(f, DataCollectKey, ConsolidateValue(GetOrNull(f, DataCollectKey)))
    else f
  }

  /** Second step: a `Full Conversation` list has its senders tagged; nothing else changes. */
  function ConversationStep(f: Fields): (r: Fields)
    ensures Get(r, ConversationKey) == match Get(f, ConversationKey)
                                       case Some(Arr(es)) => Some(Arr(NormalizedEntries(es)))
                                       case other => other
    ensures forall k :: k != ConversationKey ==> Get(r, k) == Get(f, k)
    ensures forall k :: HasKey(r, k) <==> HasKey(f, k)
    ensures UniqueKeys(f) ==> UniqueKeys(r)
  {
    if HasKey(f, ConversationKey) && GetOrNull(f, ConversationKey).Arr?
    then Set(f, ConversationKey, Arr(NormalizedEntries(GetOrNull(f, ConversationKey).items)))
    else f
  }

  /** Last step: `aiAgent` is popped, and `agentId` too when it is an empty list. */
  function AgentStep(f: Fields): (r: Fields)
    ensures !HasKey(r, AgentKey)
    ensures Get(r, AgentIdKey) == if Get(f, AgentIdKey) == Some(Arr([])) then None else Get(f, AgentIdKey)
    ensures forall k :: k != AgentKey && k != AgentIdKey ==> Get(r, k) == Get(f, k)
    ensures UniqueKeys(f) ==> UniqueKeys(r)
  {
    var popped := Remove(f, AgentKey);
    if GetOrNull(popped, AgentIdKey) == Arr([]) then Remove(popped, AgentIdKey) else popped
  }

  /** The record `_optimize_conversation_item` returns for a dict item. Every key other
      than the four it touches keeps its value. */
  function OptimizedRecord(f: Fields): (r: Fields)
    ensures !HasKey(r, AgentKey)
    ensures Get(r, AgentIdKey) == if Get(f, AgentIdKey) == Some(Arr([])) then None else Get(f, AgentIdKey)
    ensures Get(r, DataCollectKey) == match Get(f, DataCollectKey)
                                      case Some(v) => Some(ConsolidateValue(v))
                                      case None => None
    ensures Get(r, ConversationKey) == match Get(f, ConversationKey)
                                       case Some(Arr(es)) => Some(Arr(NormalizedEntries(es)))
                                       case other => other
    ensures forall k :: k != AgentKey && k != AgentIdKey && k != DataCollectKey && k != ConversationKey
                        ==> Get(r, k) == Get(f, k)
    ensures UniqueKeys(f) ==> UniqueKeys(r)
  {
    AgentStep(ConversationStep(ConsolidateStep(f)))
  }

  /** The key/value pair `dict.update` reads from one element of a list argument. The
      element is iterated and must yield exactly two items, the first a key: a list of
      two with a string first, a string of two characters, or a dict with two keys
      (iterating a dict yields its keys). Any other element raises. */
  function PairOf(e: Json): (r: Option<(string, Json)>)
    ensures e.Arr? ==> (r.Some? <==> |e.items| == 2 && e.items[0].Str?)
    ensures e.Arr? && r.Some? ==> r.value == (e.items[0].s, e.items[1])
    ensures e.Str? ==> (r.Some? <==> |e.s| == 2)
    ensures e.Str? && r.Some? ==> r.value == ([e.s[0]], Str([e.s[1]]))
    ensures e.Null? || e.Bool? || e.Num? || e.Float? ==> r.None?
  {
    match e
    case Arr(kv) => if |kv| == 2 && kv[0].Str? then Some((kv[0].s, kv[1])) else None
    case Str(s) => if |s| == 2 then Some(([s[0]], Str([s[1]]))) else None
    case Obj(m) => if |m| == 2 && m[0].0 != m[1].0 then Some((m[0].0, Str(m[1].0))) else None
    case _ => None
  }

  /** The pairs `dict.update` reads from a list argument, in order; none when one
      element raises. */
  function PairsOf(items: seq<Json>): (r: Option<Fields>)
    ensures r.Some? <==> forall i :: 0 <= i < |items| ==> PairOf(items[i]).Some?
    ensures r.Some? ==> |r.value| == |items|
                        && forall i :: 0 <= i < |items| ==> r.value[i] == PairOf(items[i]).value
    decreases |items|
  {
    if items == [] then Some([])
    else match (PairOf(items[0]), PairsOf(items[1..]))
      case (Some(p), Some(ps)) =>
        assert forall i :: 1 <= i < |items| ==> items[i] == items[1..][i - 1];
        Some([p] + ps)
      case (Some(_), None) =>
        assert forall i :: 0 <= i < |items| - 1 ==> items[1..][i] == items[i + 1];
        None
      case _ => None
  }

  /** The pairs `acc.update(a)` reads from a truthy `aiAgent`: a dict's own entries, or
      the pairs of a list; a string, a number or `true` cannot be read and raises. */
  function AgentPairs(a: Json): (r: Option<Fields>)
    ensures a.Obj? ==> r == Some(a.fields)
    ensures a.Arr? ==> r == PairsOf(a.items)
    ensures !a.Obj? && !a.Arr? ==> r.None?
    ensures r.Some? ==> (Truthy(a) <==> r.value != [])
  {
    match a
    case Obj(m) => Some(m)
    case Arr(items) => PairsOf(items)
    case _ => None
  }

  /** What `agent_at_root` holds after one item has been seen: the accumulator is
      filled only while empty, from a present `aiAgent`; `dict.update` raises on a truthy
      value it cannot read as key/value pairs. */
  function DonateAgent(acc: Fields, f: Fields): (r: Result<Fields>)
    ensures r.Failure? <==> acc == [] && Truthy(GetOrNull(f, AgentKey)) && AgentPairs(GetOrNull(f, AgentKey)).None?
    ensures r.Ok? && (acc != [] || !Truthy(GetOrNull(f, AgentKey))) ==> r.value == acc
    ensures r.Ok? && acc == [] && Truthy(GetOrNull(f, AgentKey)) ==>
              r.value != []
              && forall k :: Get(r.value, k) == LastGet(AgentPairs(GetOrNull(f, AgentKey)).value, k)
  {
    if acc == [] && HasKey(f, AgentKey) then
      var a := GetOrNull(f, AgentKey);
      if !Truthy(a) then Ok(acc)
      else match AgentPairs(a)
        case Some(pairs) => Ok(Update(acc, pairs))
        case None => Failure
    else Ok(acc)
  }

  /** `_optimize_conversation_item(item, agent_at_root)`: the optimized record and the
      accumulator after it. Any item that is not a dict raises (`in`, indexing or `pop`
      on a list, a string or a number). The first two steps leave `aiAgent` alone, so
      the accumulator reads it from the item as given. */
  function OptimizeItem(item: Json, acc: Fields): (r: Result<(Json, Fields)>)
    ensures r.Failure? <==> !item.Obj? || DonateAgent(acc, item.fields).Failure?
    ensures r.Ok? ==> r.value.0.Obj? && !HasKey(r.value.0.fields, AgentKey)
    ensures r.Ok? && acc != [] ==> r.value.1 == acc
  {
    if !item.Obj? then Failure
    else match DonateAgent(acc, item.fields)
      case Failure => Failure
      case Ok(acc') => Ok((Obj(OptimizedRecord(item.fields)), acc'))
  }

  method OptimizeConversationItem(item: Json, agentAtRoot: Fields) returns (r: Result<(Json, Fields)>)
    ensures r == OptimizeItem(item, agentAtRoot)
  {
    if !item.Obj? {
      return Failure;
    }
    var f := item.fields;
    if HasKey(f, DataCollectKey) && Truthy(GetOrNull(f, DataCollectKey)) {
      var consolidated := ConsolidateDataCollectFromUser(GetOrNull(f, DataCollectKey));
      f := Set(f, DataCollectKey, consolidated);
    }
    assert f == ConsolidateStep(item.fields);
    ghost var f1 := f;
    if HasKey(f, ConversationKey) && GetOrNull(f, ConversationKey).Arr? {
      var entries := NormalizeConversation(GetOrNull(f, ConversationKey).items);
      f := Set(f, ConversationKey, Arr(entries));
    }
    assert f == ConversationStep(f1);
    ghost var f2 := f;
    assert HasKey(f, AgentKey) == HasKey(item.fields, AgentKey);
    assert GetOrNull(f, AgentKey) == GetOrNull(item.fields, AgentKey);
    var agent := agentAtRoot;
    if agentAtRoot == [] && HasKey(f, AgentKey) {
      var a := GetOrNull(f, AgentKey);
      if Truthy(a) {
        var pairs := AgentPairs(a);
        if pairs.None? {
          return Failure;
        }
        agent := Update(agent, pairs.value);
      }
    }
    assert DonateAgent(agentAtRoot, item.fields) == Ok(agent);
    f := Remove(f, AgentKey);
    if GetOrNull(f, AgentIdKey) == Arr([]) {
      f := Remove(f, AgentIdKey);
    }
    assert f == AgentStep(f2);
    r := Ok((Obj(f), agent));
  }

  // ---------------------------------------------------------------------------
  // optimize_report_response

  /** The loop of `optimize_report_response` from the point where `out` holds the
      optimized records so far, `acc` the agent accumulator and `rest` the records left. */
  function OptimizeRecordsFrom(out: seq<Json>, acc: Fields, rest: seq<Json>): Result<(seq<Json>, Fields)>
    decreases |rest|
  {
    if rest == [] then Ok((out, acc))
    else match OptimizeItem(rest[0], acc)
      case Failure => Failure
      case Ok(step) => OptimizeRecordsFrom(out + [step.0], step.1, rest[1..])
  }

  /** The document after the record loop: `data` (re-inserted last) and the agent found. */
  function WithOptimizedData(result: Fields, doc: Fields): Result<(Fields, Fields)>
  {
    match Get(doc, "data")
    case Some(Arr(records)) =>
      (match OptimizeRecordsFrom([], [], records)
       case Failure => Failure
       case Ok(done) => Ok((Set(result, "data", Arr(done.0)), done.1)))
    case _ => Ok((result, []))
  }

  /** The fields of an existing dict `meta`; none when it is absent. */
  function MetaFieldsOf(doc: Fields): Fields
  {
    match Get(doc, "meta")
    case Some(Obj(m)) => m
    case _ => []
  }

  /** `result["meta"]["agent"] = meta_agent` when the accumulator is non-empty; `meta` is
      created when absent, and assigning into a `meta` that is not a dict raises. No other
      top-level field is touched. */
  function AttachAgent(result: Fields, agent: Fields): (r: Result<Fields>)
    ensures r.Failure? <==> agent != [] && HasKey(result, "meta") && !GetOrNull(result, "meta").Obj?
    ensures r.Ok? ==> forall k :: k != "meta" ==> Get(r.value, k) == Get(result, k)
    ensures r.Ok? ==> Get(r.value, "meta") == if agent == [] then Get(result, "meta")
                                            else Some(Obj(Set(MetaFieldsOf(result), "agent", Obj(agent))))
  {
    if agent == [] then Ok(result)
    else
      var withMeta := if HasKey(result, "meta") then result else Set(result, "meta", Obj([]));
      match GetOrNull(withMeta, "meta")
      case Obj(m) => Ok(Set(withMeta, "meta", Obj(Set(m, "agent", Obj(agent)))))
      case _ => Failure
  }

  /** `optimize_report_response(data)`. */
  function OptimizeReport(doc: Json): (r: Result<Json>)
    ensures !Truthy(doc) || !doc.Obj? ==> r == Ok(doc)
    ensures Truthy(doc) && doc.Obj? && r.Ok? ==> r.value.Obj?
  {
    if !Truthy(doc) || !doc.Obj? then Ok(doc)
    else match WithOptimizedData(Remove(doc.fields, "data"), doc.fields)
      case Failure => Failure
      case Ok(step) =>
        match AttachAgent(step.0, step.1)
        case Failure => Failure
        case Ok(r) => Ok(Obj(r))
  }

  /** The record loop of `optimize_report_response`: each record optimized in turn,
      threading the agent accumulator; the first raising record ends the loop. */
  method OptimizeRecords(records: seq<Json>) returns (r: Result<(seq<Json>, Fields)>)
    ensures r == OptimizeRecordsFrom([], [], records)
  {
    var optimizedData: seq<Json> := [];
    var metaAgent: Fields := [];
    var i := 0;
    while i < |records|
      invariant 0 <= i <= |records|
      invariant OptimizeRecordsFrom(optimizedData, metaAgent, records[i..]) == OptimizeRecordsFrom([], [], records)
    {
      assert records[i..][1..] == records[i + 1..];
      var step := OptimizeConversationItem(records[i], metaAgent);
      if step.Failure? {
        return Failure;
      }
      optimizedData := optimizedData + [step.value.0];
      metaAgent := step.value.1;
      i := i + 1;
    }
    assert records[i..] == [];
    r := Ok((optimizedData, metaAgent));
  }

  method OptimizeReportResponse(data: Json) returns (r: Result<Json>)
    ensures r == OptimizeReport(data)
  {
    if !Truthy(data) || !data.Obj? {
      return Ok(data);
    }
    var result := Remove(data.fields, "data");
    ghost var withoutData := result;
    var metaAgent: Fields := [];
    if HasKey(data.fields, "data") && GetOrNull(data.fields, "data").Arr? {
      var done := OptimizeRecords(GetOrNull(data.fields, "data").items);
      if done.Failure? {
        return Failure;
      }
      metaAgent := done.value.1;
      result := Set(result, "data", Arr(done.value.0));
    }
    assert WithOptimizedData(withoutData, data.fields) == Ok((result, metaAgent));
    ghost var withData := result;
    if metaAgent != [] {
      if !HasKey(result, "meta") {
        result := Set(result, "meta", Obj([]));
      }
      var meta := GetOrNull(result, "meta");
      if !meta.Obj? {
        assert AttachAgent(withData, metaAgent) == Failure;
        return Failure;
      }
      result := Set(result, "meta", Obj(Set(meta.fields, "agent", Obj(metaAgent))));
    }
    assert AttachAgent(withData, metaAgent) == Ok(result);
    r := Ok(Obj(result));
  }

  // ---------------------------------------------------------------------------
  // What optimize_report_response promises

  /** `data["data"]` when it is a list, and no records otherwise. */
  function RecordsOf(doc: Fields): seq<Json>
  {
    match Get(doc, "data")
    case Some(Arr(records)) => records
    case _ => []
  }

  predicate DataIsList(doc: Fields)
  {
    HasKey(doc, "data") && GetOrNull(doc, "data").Arr?
  }

  /** Every record is a dict. */
  predicate AllObjects(records: seq<Json>)
  {
    records == [] || (records[0].Obj? && AllObjects(records[1..]))
  }

  /** The records each optimized, position by position (a non-dict is left as it is,
      though the loop never gets past one). */
  function OptimizedRecords(records: seq<Json>): (r: seq<Json>)
    ensures |r| == |records|
    ensures forall i :: 0 <= i < |records| && records[i].Obj? ==> r[i] == Obj(OptimizedRecord(records[i].fields))
  {
    if records == [] then []
    else
      var head := if records[0].Obj? then Obj(OptimizedRecord(records[0].fields)) else records[0];
      var tail := OptimizedRecords(records[1..]);
      assert forall i :: 1 <= i < |records| ==> ([head] + tail)[i] == tail[i - 1] && records[i] == records[1..][i - 1];
      [head] + tail
  }

  /** The first truthy `aiAgent` of a dict record: the one value the accumulator takes. */
  function FirstAgent(records: seq<Json>): Option<Json>
  {
    if records == [] then None
    else if records[0].Obj? && Truthy(GetOrNull(records[0].fields, AgentKey))
    then Some(GetOrNull(records[0].fields, AgentKey))
    else FirstAgent(records[1..])
  }

  /** The accumulator's content at the end of the loop. */
  function LiftedAgent(records: seq<Json>): Fields
  {
    match FirstAgent(records)
    case Some(a) => (match AgentPairs(a) case Some(pairs) => Update([], pairs) case None => [])
    case None => []
  }

  /** `dict.update` raises: the first truthy agent cannot be read as key/value pairs. */
  predicate AgentRaises(records: seq<Json>)
  {
    FirstAgent(records).Some? && AgentPairs(FirstAgent(records).value).None?
  }

  /** The record loop raises exactly on a record that is not a dict or on a first truthy
      agent that is not a dict, and otherwise ends holding the first truthy agent (an
      accumulator filled once is never touched again). */
  lemma {:induction false} OptimizeRecordsAgent(out: seq<Json>, acc: Fields, rest: seq<Json>)
    ensures OptimizeRecordsFrom(out, acc, rest).Failure?
            <==> !AllObjects(rest) || (acc == [] && AgentRaises(rest))
    ensures OptimizeRecordsFrom(out, acc, rest).Ok? ==>
              OptimizeRecordsFrom(out, acc, rest).value.1 == if acc == [] then LiftedAgent(rest) else acc
    decreases |rest|
  {
    if rest != [] && rest[0].Obj? {
      var f := rest[0].fields;
      var donated := DonateAgent(acc, f);
      if donated.Ok? {
        var a := GetOrNull(f, AgentKey);
        if acc == [] && Truthy(a) {
          var pairs := AgentPairs(a).value;
          assert HasKey(pairs, pairs[0].0);
          assert HasKey(donated.value, pairs[0].0);
        }
        OptimizeRecordsAgent(out + [Obj(OptimizedRecord(f))], donated.value, rest[1..]);
      }
    }
  }

  /** The record loop keeps the records' number and order: record i of its output is
      record i of its input optimized. */
  lemma {:induction false} OptimizeRecordsOrder(out: seq<Json>, acc: Fields, rest: seq<Json>)
    ensures OptimizeRecordsFrom(out, acc, rest).Ok? ==>
              OptimizeRecordsFrom(out, acc, rest).value.0 == out + OptimizedRecords(rest)
    decreases |rest|
  {
    if rest != [] && rest[0].Obj? {
      var step := OptimizeItem(rest[0], acc);
      if step.Ok? {
        var x := Obj(OptimizedRecord(rest[0].fields));
        OptimizeRecordsOrder(out + [x], step.value.1, rest[1..]);
        SeqAssoc(out, [x], OptimizedRecords(rest[1..]));
      }
    }
  }

  /** `optimize_report_response` returns falsy and non-dict documents unchanged, and on a
      dict raises exactly when `data` is a list and one of its records is not a dict, or
      the first truthy agent is not a dict, or an agent was found and `meta` exists but
      is not a dict. */
  lemma OptimizeReportFails(doc: Json)
    ensures !Truthy(doc) || !doc.Obj? ==> OptimizeReport(doc) == Ok(doc)
    ensures Truthy(doc) && doc.Obj? ==>
              var rs := RecordsOf(doc.fields);
              (OptimizeReport(doc).Failure?
               <==> DataIsList(doc.fields)
                    && (!AllObjects(rs) || AgentRaises(rs)
                        || (LiftedAgent(rs) != [] && HasKey(doc.fields, "meta") && !GetOrNull(doc.fields, "meta").Obj?)))
  {
    if Truthy(doc) && doc.Obj? {
      var rs := RecordsOf(doc.fields);
      OptimizeRecordsAgent([], [], rs);
    }
  }

  /** What a successful run produces: every top-level field but `data` and `meta` kept;
      `data` re-inserted last holding record i optimized at position i, or dropped when it
      is not a list; `meta` untouched unless an agent was found, in which case it gains
      (or is created with) `agent`, the first truthy agent. */
  lemma OptimizeReportResult(doc: Json)
    requires Truthy(doc) && doc.Obj? && OptimizeReport(doc).Ok?
    ensures OptimizeReport(doc).value.Obj?
    ensures var r := OptimizeReport(doc).value.fields;
            var rs := RecordsOf(doc.fields);
            (forall k :: k != "data" && k != "meta" ==> Get(r, k) == Get(doc.fields, k))
            && (!DataIsList(doc.fields) ==> !HasKey(r, "data"))
            && (DataIsList(doc.fields) ==> AllObjects(rs) && Get(r, "data") == Some(Arr(OptimizedRecords(rs))))
            && Get(r, "meta") == if LiftedAgent(rs) == [] then Get(doc.fields, "meta")
                                 else Some(Obj(Set(MetaFieldsOf(doc.fields), "agent", Obj(LiftedAgent(rs)))))
  {
    var f := doc.fields;
    var rs := RecordsOf(f);
    var base := Remove(f, "data");
    var withData := if DataIsList(f) then Set(base, "data", Arr(OptimizedRecords(rs))) else base;
    WithOptimizedDataResult(f);
    assert OptimizeReport(doc) == Ok(Obj(AttachAgent(withData, LiftedAgent(rs)).value));
  }

  /** The data step: `data` moved last and optimized, the agent lifted, nothing else moved. */
  lemma WithOptimizedDataResult(f: Fields)
    requires WithOptimizedData(Remove(f, "data"), f).Ok?
    ensures var rs := RecordsOf(f);
            var base := Remove(f, "data");
            var withData := if DataIsList(f) then Set(base, "data", Arr(OptimizedRecords(rs))) else base;
            WithOptimizedData(base, f) == Ok((withData, LiftedAgent(rs)))
            && (DataIsList(f) ==> AllObjects(rs))
            && Get(withData, "meta") == Get(f, "meta")
  {
    var rs := RecordsOf(f);
    OptimizeRecordsAgent([], [], rs);
    OptimizeRecordsOrder([], [], rs);
    assert [] + OptimizedRecords(rs) == OptimizedRecords(rs);
  }

  /** The lifted agent is a copy of the record's `aiAgent` dict. */
  lemma LiftedAgentCopies(records: seq<Json>)
    requires FirstAgent(records).Some? && FirstAgent(records).value.Obj?
    requires UniqueKeys(FirstAgent(records).value.fields)
    ensures LiftedAgent(records) == FirstAgent(records).value.fields
  {
    UpdateCopies([], FirstAgent(records).value.fields);
  }

  /** A list of pairs is read as the dict it spells: a record holding only
      `aiAgent: [["id", 5]]` optimizes to an empty record and fills the accumulator
      with `{"id": 5}`. */
  lemma PairListRecord()
    ensures OptimizeItem(Obj([(AgentKey, Arr([Arr([Str("id"), Num(5)])]))]), [])
            == Ok((Obj([]), [("id", Num(5))]))
  {
    var agent: Fields := [("id", Num(5))];
    var f: Fields := [(AgentKey, Arr([Arr([Str("id"), Num(5)])]))];
    PairsOfOne(Arr([Str("id"), Num(5)]));
    assert Update([], agent) == agent;
    assert DonateAgent([], f) == Ok(agent);
    assert ConsolidateStep(f) == f;
    assert ConversationStep(f) == f;
    assert AgentStep(f) == [];
  }

  lemma PairListRecords()
    ensures OptimizeRecordsFrom([], [], [Obj([(AgentKey, Arr([Arr([Str("id"), Num(5)])]))])])
            == Ok(([Obj([])], [("id", Num(5))]))
  {
    var agent: Fields := [("id", Num(5))];
    var f: Fields := [(AgentKey, Arr([Arr([Str("id"), Num(5)])]))];
    PairListRecord();
    assert [Obj(f)][1..] == [];
    assert [] + [Obj([])] == [Obj([])];
    assert OptimizeRecordsFrom([Obj([])], agent, []) == Ok(([Obj([])], agent));
  }

  lemma PairListData()
    ensures var doc: Fields := [("data", Arr([Obj([(AgentKey, Arr([Arr([Str("id"), Num(5)])]))])]))];
            Remove(doc, "data") == []
            && WithOptimizedData([], doc) == Ok(([("data", Arr([Obj([])]))], [("id", Num(5))]))
  {
    var f: Fields := [(AgentKey, Arr([Arr([Str("id"), Num(5)])]))];
    var doc: Fields := [("data", Arr([Obj(f)]))];
    PairListRecords();
    assert Get(doc, "data") == Some(Arr([Obj(f)]));
    assert Remove(doc, "data") == [];
    assert Set([], "data", Arr([Obj([])])) == [("data", Arr([Obj([])]))];
  }

  /** A one-element list is read as one pair, or raises. */
  lemma PairsOfOne(e: Json)
    ensures PairsOf([e]) == match PairOf(e) case Some(p) => Some([p]) case None => None
  {
    assert [e][0] == e;
    if PairOf(e).Some? {
      assert PairsOf([e]).value == [PairOf(e).value];
    }
  }

  /** The document `{"data": [{"aiAgent": [["id", 5]]}]}` optimizes to
      `{"data": [{}], "meta": {"agent": {"id": 5}}}`. */
  lemma PairListAgentLifted()
    ensures OptimizeReport(Obj([("data", Arr([Obj([(AgentKey, Arr([Arr([Str("id"), Num(5)])]))])]))]))
            == Ok(Obj([("data", Arr([Obj([])])), ("meta", Obj([("agent", Obj([("id", Num(5))]))]))]))
  {
    var agent: Fields := [("id", Num(5))];
    var f: Fields := [(AgentKey, Arr([Arr([Str("id"), Num(5)])]))];
    var doc: Fields := [("data", Arr([Obj(f)]))];
    var withData: Fields := [("data", Arr([Obj([])]))];
    PairListData();
    ReportWithNewMeta(Obj(doc), withData, agent);
    assert withData + [("meta", Obj([("agent", Obj(agent))]))]
           == [("data", Arr([Obj([])])), ("meta", Obj([("agent", Obj([("id", Num(5))]))]))];
  }

  /** An agent lifted from a document without `meta` is attached as a new last field
      `meta` holding only `agent`. */
  lemma ReportWithNewMeta(doc: Json, withData: Fields, agent: Fields)
    requires Truthy(doc) && doc.Obj?
    requires WithOptimizedData(Remove(doc.fields, "data"), doc.fields) == Ok((withData, agent))
    requires agent != [] && !HasKey(withData, "meta")
    ensures OptimizeReport(doc) == Ok(Obj(withData + [("meta", Obj([("agent", Obj(agent))]))]))
  {
    var meta := Obj([("agent", Obj(agent))]);
    var withMeta := withData + [("meta", Obj([]))];
    assert Set(withData, "meta", Obj([])) == withMeta;
    assert GetOrNull(withMeta, "meta") == Obj([]);
    assert Set([], "agent", Obj(agent)) == [("agent", Obj(agent))];
    SetLast(withData, "meta", Obj([]), meta);
    assert AttachAgent(withData, agent) == Ok(withData + [("meta", meta)]);
  }

  /** Assigning to the key of the last pair, when it occurs nowhere else, replaces it. */
  lemma {:induction false} SetLast(f: Fields, k: string, v: Json, w: Json)
    requires !HasKey(f, k)
    ensures Set(f + [(k, v)], k, w) == f + [(k, w)]
  {
    if f != [] {
      assert (f + [(k, v)])[1..] == f[1..] + [(k, v)];
      SetLast(f[1..], k, v, w);
      assert [f[0]] + (f[1..] + [(k, w)]) == f + [(k, w)];
    }
  }

  /** A two-character string in the list is a pair; a truthy string agent raises. */
  lemma StringAgents()
    ensures DonateAgent([], [(AgentKey, Arr([Str("ab")]))]) == Ok([("a", Str("b"))])
    ensures DonateAgent([], [(AgentKey, Str("ab"))]) == Failure
  {
    assert "ab"[0] == 'a' && "ab"[1] == 'b';
    assert PairOf(Str("ab")) == Some(("a", Str("b")));
    PairsOfOne(Str("ab"));
  }

  /** A document holding one record that holds only a conversation of one entry. */
  function OneEntryDoc(entry: Json): Json
  {
    Obj([("data", Arr([Obj([(ConversationKey, Arr([entry]))])]))])
  }

  /** The record of such a document: only its conversation entry changes. */
  lemma OneEntryRecord(entry: Json)
    ensures OptimizeItem(Obj([(ConversationKey, Arr([entry]))]), [])
            == Ok((Obj([(ConversationKey, Arr([NormalizeEntry(entry)]))]), []))
  {
    var f: Fields := [(ConversationKey, Arr([entry]))];
    var f1: Fields := [(ConversationKey, Arr([NormalizeEntry(entry)]))];
    assert ConsolidateStep(f) == f;
    assert NormalizedEntries([entry]) == [NormalizeEntry(entry)];
    assert ConversationStep(f) == f1;
    assert Remove(f1, AgentKey) == f1;
    assert AgentStep(f1) == f1;
  }

  lemma OneEntryRecords(entry: Json)
    ensures OptimizeRecordsFrom([], [], [Obj([(ConversationKey, Arr([entry]))])])
            == Ok(([Obj([(ConversationKey, Arr([NormalizeEntry(entry)]))])], []))
  {
    var f: Fields := [(ConversationKey, Arr([entry]))];
    var f1: Fields := [(ConversationKey, Arr([NormalizeEntry(entry)]))];
    OneEntryRecord(entry);
    assert [Obj(f)][1..] == [];
    assert [] + [Obj(f1)] == [Obj(f1)];
    assert OptimizeRecordsFrom([Obj(f1)], [], []) == Ok(([Obj(f1)], []));
  }

  /** Such a document optimizes to the same shape with the entry normalized. */
  lemma OneEntryReport(entry: Json)
    ensures OptimizeReport(OneEntryDoc(entry)) == Ok(OneEntryDoc(NormalizeEntry(entry)))
  {
    var f1: Fields := [(ConversationKey, Arr([NormalizeEntry(entry)]))];
    OneEntryRecords(entry);
    var doc := OneEntryDoc(entry).fields;
    assert Remove(doc, "data") == [];
    assert WithOptimizedData([], doc) == Ok(([("data", Arr([Obj(f1)]))], []));
    ReportWithoutAgent(OneEntryDoc(entry), [("data", Arr([Obj(f1)]))]);
  }

  /** When no record carries an agent, the report is the data step's result as it is. */
  lemma ReportWithoutAgent(doc: Json, withData: Fields)
    requires Truthy(doc) && doc.Obj?
    requires WithOptimizedData(Remove(doc.fields, "data"), doc.fields) == Ok((withData, []))
    ensures OptimizeReport(doc) == Ok(Obj(withData))
  {
    assert AttachAgent(withData, []) == Ok(withData);
  }

  /** Optimizing twice is not optimizing once: the `"agent"` tag written the first time
      is not an agent sender, and the second run turns it into `"user"`. */
  lemma OptimizeNotIdempotent()
    ensures var entry := Obj([("sender", Arr([Obj([("firstName", Str("Bia"))])]))]);
            var once := OptimizeReport(OneEntryDoc(entry));
            once == Ok(OneEntryDoc(Obj([("sender", Str("agent"))])))
            && OptimizeReport(once.value) == Ok(OneEntryDoc(Obj([("sender", Str("user"))])))
  {
    var entry := Obj([("sender", Arr([Obj([("firstName", Str("Bia"))])]))]);
    OneEntryReport(entry);
    ListSenderTaggedAgent();
    OneEntryReport(Obj([("sender", Str("agent"))]));
    AgentStringTaggedUser();
  }

  lemma ListSenderTaggedAgent()
    ensures NormalizeEntry(Obj([("sender", Arr([Obj([("firstName", Str("Bia"))])]))]))
            == Obj([("sender", Str("agent"))])
  {
  }

  lemma AgentStringTaggedUser()
    ensures NormalizeEntry(Obj([("sender", Str("agent"))])) == Obj([("sender", Str("user"))])
  {
  }
}
