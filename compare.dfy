/** The comparison of src/compare_report.py between a raw report and its optimized form:
    the metrics of `compare_responses`, the filter `save_comparison_report` applies before
    writing them, the change list and conclusion of the Markdown report, and the file-name
    suffix. The JSON byte sizes are inputs; the file reads and writes are left out. */
module CompareReport {
  import opened JsonValues
  import opened Text
  import opened Optimizer
  import Storage

  /** `_DATA_COLLECT_PT_KEYS`. */
  const PtKeys: set<string> := {
    "nome completo", "data de nascimento", "cpf", "celular", "e-mail",
    "cep", "endereço", "número", "cidade", "estado"
  }

  /** The set mirrors the optimizer's rename map, `cpf` (which keeps its name) included. */
  lemma PtKeysMirrorRenameMap()
    ensures PtKeys == PtToEn.Keys
    ensures "cpf" in PtKeys && Rename("cpf") == "cpf"
  {
    assert forall k :: k in PtToEn.Keys <==> k in PtKeys by {
      forall k ensures k in PtToEn.Keys <==> k in PtKeys {
        if k in PtKeys {
          assert k in PtToEn;
        }
      }
    }
  }

  // ---------------------------------------------------------------------------
  // Sizes

  /** `saved / size_raw * 100`, or 0 for an empty raw payload; the rounding to two
      decimals is left out. */
  function SavedPercent(sizeRaw: nat, saved: int): (r: real)
    ensures sizeRaw == 0 ==> r == 0.0
    ensures sizeRaw > 0 ==> r * (sizeRaw as real) == (saved as real) * 100.0
    ensures r > 0.0 <==> sizeRaw > 0 && saved > 0
  {
    if sizeRaw == 0 then 0.0 else (saved as real) / (sizeRaw as real) * 100.0
  }

  // ---------------------------------------------------------------------------
  // Per-record counts

  /** `x if isinstance(x, list) else []`. */
  function ListOr(v: Json): seq<Json>
  {
    if v.Arr? then v.items else []
  }

  /** `x if isinstance(x, dict) else {}`. */
  function DictOr(v: Json): Fields
  {
    if v.Obj? then v.fields else []
  }

  /** The length of a dict record's `Full Conversation` list, 0 for anything else. */
  function ConversationLength(item: Json): nat
  {
    if item.Obj? && GetOrNull(item.fields, ConversationKey).Arr?
    then |GetOrNull(item.fields, ConversationKey).items| else 0
  }

  /** The sum of the conversation lengths. */
  function ConversationTotal(items: seq<Json>): nat
  {
    if items == [] then 0 else ConversationLength(items[0]) + ConversationTotal(items[1..])
  }

  /** `count_full_conversation_entries`. */
  method CountFullConversationEntries(items: seq<Json>) returns (total: nat)
    ensures total == ConversationTotal(items)
  {
    total := 0;
    var i := 0;
    while i < |items|
      invariant 0 <= i <= |items|
      invariant total + ConversationTotal(items[i..]) == ConversationTotal(items)
    {
      assert items[i..][1..] == items[i + 1..];
      var it := items[i];
      if it.Obj? && GetOrNull(it.fields, ConversationKey).Arr? {
        total := total + |GetOrNull(it.fields, ConversationKey).items|;
      }
      i := i + 1;
    }
    assert items[i..] == [];
  }

  /** The dict records with a truthy `aiAgent`. */
  function AgentItems(items: seq<Json>): (r: nat)
    ensures r <= |items|
  {
    if items == [] then 0
    else (if items[0].Obj? && Truthy(GetOrNull(items[0].fields, AgentKey)) then 1 else 0) + AgentItems(items[1..])
  }

  /** The dict records whose `agentId` is `[]`. */
  function EmptyAgentIdItems(items: seq<Json>): (r: nat)
    ensures r <= |items|
  {
    if items == [] then 0
    else (if items[0].Obj? && GetOrNull(items[0].fields, AgentIdKey) == Arr([]) then 1 else 0)
         + EmptyAgentIdItems(items[1..])
  }

  /** `bool(optimized.get("meta") and optimized["meta"].get("agent"))`: a truthy `meta`
      that is not a dict has no `get` and raises. */
  function MetaAgent(opt: Fields): (r: Result<bool>)
    ensures r.Failure? <==> Truthy(GetOrNull(opt, "meta")) && !GetOrNull(opt, "meta").Obj?
    ensures r.Ok? ==> (r.value <==> GetOrNull(opt, "meta").Obj?
                                    && Truthy(GetOrNull(GetOrNull(opt, "meta").fields, "agent")))
  {
    var meta := GetOrNull(opt, "meta");
    if !Truthy(meta) then Ok(false)
    else if !meta.Obj? then Failure
    else Ok(Truthy(GetOrNull(meta.fields, "agent")))
  }

  /** The sender test of the entry loop: the optimized sender is a string and the raw one
      is a list, a dict, or a different value. */
  predicate SenderChanged(rs: Json, os: Json)
  {
    os.Str? && (rs.Arr? || rs.Obj? || rs != os)
  }

  /** A list or dict never equals a string, so the test is "the optimized sender is a
      string and differs from the raw one". */
  lemma SenderChangedMeaning(rs: Json, os: Json)
    ensures SenderChanged(rs, os) <==> os.Str? && rs != os
  {
  }

  /** One pair of entries counts when both are dicts holding `sender` and the sender
      changed. */
  function EntryPairChanged(rent: Json, oent: Json): bool
  {
    rent.Obj? && oent.Obj? && HasKey(rent.fields, "sender") && HasKey(oent.fields, "sender")
    && SenderChanged(GetOrNull(rent.fields, "sender"), GetOrNull(oent.fields, "sender"))
  }

  /** The changed senders over `zip(r_fc, o_fc)`: pairs up to the shorter list only. */
  function SenderChanges(res: seq<Json>, oes: seq<Json>): (r: nat)
    ensures r <= |res| && r <= |oes|
  {
    if res == [] || oes == [] then 0
    else (if EntryPairChanged(res[0], oes[0]) then 1 else 0) + SenderChanges(res[1..], oes[1..])
  }

  /** The inner loop over the paired entries. */
  method CountSenderChanges(res: seq<Json>, oes: seq<Json>) returns (n: nat)
    ensures n == SenderChanges(res, oes)
  {
    n := 0;
    var i := 0;
    var m := if |res| < |oes| then |res| else |oes|;
    while i < m
      invariant 0 <= i <= m
      invariant n + SenderChanges(res[i..], oes[i..]) == SenderChanges(res, oes)
    {
      assert res[i..][1..] == res[i + 1..] && oes[i..][1..] == oes[i + 1..];
      var rent := res[i];
      var oent := oes[i];
      if rent.Obj? && oent.Obj? && HasKey(rent.fields, "sender") && HasKey(oent.fields, "sender") {
        var rs := GetOrNull(rent.fields, "sender");
        var osVal := GetOrNull(oent.fields, "sender");
        if osVal.Str? && (rs.Arr? || rs.Obj? || rs != osVal) {
          n := n + 1;
        }
      }
      i := i + 1;
    }
    assert res[i..] == [] || oes[i..] == [];
  }

  /** The number of keys of a dict that are Portuguese field names. */
  function PtKeyCount(dc: Fields): (r: nat)
    ensures r <= |dc|
  {
    if dc == [] then 0 else (if dc[0].0 in PtKeys then 1 else 0) + PtKeyCount(dc[1..])
  }

  /** The changed senders of one pair of dict records. */
  function RecordSenderChanges(r: Fields, o: Fields): nat
  {
    SenderChanges(ListOr(GetOrNull(r, ConversationKey)), ListOr(GetOrNull(o, ConversationKey)))
  }

  /** The Portuguese keys of a raw record's `dataCollectFromUser` dict. */
  function RecordPtKeys(r: Fields): nat
  {
    PtKeyCount(DictOr(GetOrNull(r, DataCollectKey)))
  }

  /** The changed senders over `zip(data_raw, data_opt)`, dict pairs only. */
  function ZipSenderChanges(raws: seq<Json>, opts: seq<Json>): nat
  {
    if raws == [] || opts == [] then 0
    else (if raws[0].Obj? && opts[0].Obj? then RecordSenderChanges(raws[0].fields, opts[0].fields) else 0)
         + ZipSenderChanges(raws[1..], opts[1..])
  }

  /** The Portuguese keys over `zip(data_raw, data_opt)`, dict pairs only. */
  function ZipPtKeys(raws: seq<Json>, opts: seq<Json>): nat
  {
    if raws == [] || opts == [] then 0
    else (if raws[0].Obj? && opts[0].Obj? then RecordPtKeys(raws[0].fields) else 0)
         + ZipPtKeys(raws[1..], opts[1..])
  }

  /** The loop over the paired records. The `len(r_dc) != len(o_dc)` alternative of its
      condition only ever adds a zero, so each pair adds its raw Portuguese keys. */
  method CountRecordPairs(raws: seq<Json>, opts: seq<Json>) returns (senders: nat, ptKeys: nat)
    ensures senders == ZipSenderChanges(raws, opts)
    ensures ptKeys == ZipPtKeys(raws, opts)
  {
    senders, ptKeys := 0, 0;
    var i := 0;
    var m := if |raws| < |opts| then |raws| else |opts|;
    while i < m
      invariant 0 <= i <= m
      invariant senders + ZipSenderChanges(raws[i..], opts[i..]) == ZipSenderChanges(raws, opts)
      invariant ptKeys + ZipPtKeys(raws[i..], opts[i..]) == ZipPtKeys(raws, opts)
    {
      assert raws[i..][1..] == raws[i + 1..] && opts[i..][1..] == opts[i + 1..];
      var r := raws[i];
      var o := opts[i];
      if r.Obj? && o.Obj? {
        var rFc := ListOr(GetOrNull(r.fields, ConversationKey));
        var oFc := ListOr(GetOrNull(o.fields, ConversationKey));
        var c := CountSenderChanges(rFc, oFc);
        senders := senders + c;
        var rDc := DictOr(GetOrNull(r.fields, DataCollectKey));
        var oDc := DictOr(GetOrNull(o.fields, DataCollectKey));
        var here := PtKeyCount(rDc);
        if here != 0 || |rDc| != |oDc| {
          ptKeys := ptKeys + here;
        }
      }
      i := i + 1;
    }
    assert raws[i..] == [] || opts[i..] == [];
  }

  // ---------------------------------------------------------------------------
  // compare_responses

  const RemovedAgentText := "aiAgent removido de cada item e extraído para meta.agent"
  const RemovedAgentIdText := "agentId vazio removido dos itens"
  const AddedMetaText := "meta.agent no topo (agente único)"
  const SenderText := "sender em Full Conversation: objeto/array → 'agent' ou 'user'"
  const DataCollectText := "dataCollectFromUser: chaves em pt consolidadas para en"

  /** The dict `compare_responses` returns; a summary entry is `None` when its change did
      not happen. */
  datatype Metrics = Metrics(
    sizeRaw: nat, sizeOptimized: nat, sizeSaved: int, sizeSavedPercent: real,
    dataCountRaw: nat, dataCountOptimized: nat,
    conversationEntriesRaw: nat, conversationEntriesOptimized: nat,
    agentRemoved: int, metaAgentAtRoot: bool, emptyAgentIdRemoved: int,
    sendersNormalized: nat, ptKeysConsolidated: nat,
    summaryRemoved: seq<Option<string>>, summaryAdded: seq<Option<string>>,
    summaryNormalized: seq<Option<string>>)

  /** `Some(text)` when the condition fired, `None` otherwise. */
  function When(c: bool, text: string): (r: Option<string>)
    ensures r.Some? <==> c
  {
    if c then Some(text) else None
  }

  /** The metrics `compare_responses` computes once its `meta` test has passed with
      `hasMeta`. */
  function MetricsOf(raw: Fields, opt: Fields, sizeRaw: nat, sizeOpt: nat, hasMeta: bool): (m: Metrics)
    ensures m.sizeSaved == sizeRaw - sizeOpt
    ensures sizeRaw > 0 ==> m.sizeSavedPercent * (sizeRaw as real) == (m.sizeSaved as real) * 100.0
    ensures m.dataCountRaw == |RecordsOf(raw)| && m.dataCountOptimized == |RecordsOf(opt)|
    ensures m.metaAgentAtRoot == hasMeta
    ensures m.conversationEntriesRaw == ConversationTotal(RecordsOf(raw))
            && m.conversationEntriesOptimized == ConversationTotal(RecordsOf(opt))
    ensures m.agentRemoved == AgentItems(RecordsOf(raw)) - AgentItems(RecordsOf(opt))
            && m.emptyAgentIdRemoved == EmptyAgentIdItems(RecordsOf(raw)) - EmptyAgentIdItems(RecordsOf(opt))
    ensures m.sendersNormalized == ZipSenderChanges(RecordsOf(raw), RecordsOf(opt))
            && m.ptKeysConsolidated == ZipPtKeys(RecordsOf(raw), RecordsOf(opt))
    ensures |m.summaryRemoved| == 2 && |m.summaryAdded| == 1 && |m.summaryNormalized| == 2
    ensures (m.summaryRemoved[0].Some? <==> m.agentRemoved > 0)
            && (m.summaryRemoved[1].Some? <==> m.emptyAgentIdRemoved > 0)
            && (m.summaryAdded[0].Some? <==> hasMeta)
            && (m.summaryNormalized[0].Some? <==> m.sendersNormalized != 0)
            && (m.summaryNormalized[1].Some? <==> m.ptKeysConsolidated != 0)
  {
    var raws := RecordsOf(raw);
    var opts := RecordsOf(opt);
    var agentsRaw := AgentItems(raws);
    var agentsOpt := AgentItems(opts);
    var emptyRaw := EmptyAgentIdItems(raws);
    var emptyOpt := EmptyAgentIdItems(opts);
    var senders := ZipSenderChanges(raws, opts);
    var ptKeys := ZipPtKeys(raws, opts);
    Metrics(
      sizeRaw, sizeOpt, sizeRaw - sizeOpt, SavedPercent(sizeRaw, sizeRaw - sizeOpt),
      |raws|, |opts|, ConversationTotal(raws), ConversationTotal(opts),
      agentsRaw - agentsOpt, hasMeta, emptyRaw - emptyOpt, senders, ptKeys,
      [When(agentsRaw > agentsOpt, RemovedAgentText), When(emptyRaw > emptyOpt, RemovedAgentIdText)],
      [When(hasMeta, AddedMetaText)],
      [When(senders != 0, SenderText), When(ptKeys != 0, DataCollectText)])
  }

  /** `compare_responses(raw, optimized)` with the two JSON byte sizes given. */
  function Compare(raw: Fields, opt: Fields, sizeRaw: nat, sizeOpt: nat): (r: Result<Metrics>)
    ensures r.Failure? <==> Truthy(GetOrNull(opt, "meta")) && !GetOrNull(opt, "meta").Obj?
    ensures r.Ok? ==> r.value.sizeSaved == sizeRaw - sizeOpt
    ensures r.Ok? ==> var meta := GetOrNull(opt, "meta");
                      (r.value.metaAgentAtRoot <==> meta.Obj? && Truthy(GetOrNull(meta.fields, "agent")))
    ensures r.Ok? ==> r.value.agentRemoved == AgentItems(RecordsOf(raw)) - AgentItems(RecordsOf(opt))
                      && r.value.emptyAgentIdRemoved == EmptyAgentIdItems(RecordsOf(raw)) - EmptyAgentIdItems(RecordsOf(opt))
                      && r.value.sendersNormalized == ZipSenderChanges(RecordsOf(raw), RecordsOf(opt))
                      && r.value.ptKeysConsolidated == ZipPtKeys(RecordsOf(raw), RecordsOf(opt))
    ensures r.Ok? ==> |r.value.summaryRemoved| == 2 && |r.value.summaryAdded| == 1
                      && |r.value.summaryNormalized| == 2
    ensures r.Ok? ==> (r.value.summaryRemoved[0].Some? <==> r.value.agentRemoved > 0)
                      && (r.value.summaryRemoved[1].Some? <==> r.value.emptyAgentIdRemoved > 0)
                      && (r.value.summaryAdded[0].Some? <==> r.value.metaAgentAtRoot)
                      && (r.value.summaryNormalized[0].Some? <==> r.value.sendersNormalized != 0)
                      && (r.value.summaryNormalized[1].Some? <==> r.value.ptKeysConsolidated != 0)
  {
    match MetaAgent(opt)
    case Failure => Failure
    case Ok(hasMeta) => Ok(MetricsOf(raw, opt, sizeRaw, sizeOpt, hasMeta))
  }

  /** The counters of `compare_responses`, accumulated by loops. */
  method Measure(raw: Fields, opt: Fields, sizeRaw: nat, sizeOpt: nat, hasMeta: bool) returns (m: Metrics)
    ensures m == MetricsOf(raw, opt, sizeRaw, sizeOpt, hasMeta)
  {
    var saved := sizeRaw - sizeOpt;
    var savedPct := if sizeRaw != 0 then (saved as real) / (sizeRaw as real) * 100.0 else 0.0;
    assert savedPct == SavedPercent(sizeRaw, saved);
    var dataRaw := if GetOrNull(raw, "data").Arr? then GetOrNull(raw, "data").items else [];
    var dataOpt := if GetOrNull(opt, "data").Arr? then GetOrNull(opt, "data").items else [];
    assert dataRaw == RecordsOf(raw) && dataOpt == RecordsOf(opt);
    var fcRaw := CountFullConversationEntries(dataRaw);
    var fcOpt := CountFullConversationEntries(dataOpt);
    var agentsRaw: int := AgentItems(dataRaw);
    var agentsOpt: int := AgentItems(dataOpt);
    var emptyRaw: int := EmptyAgentIdItems(dataRaw);
    var emptyOpt: int := EmptyAgentIdItems(dataOpt);
    var senders, ptKeys := CountRecordPairs(dataRaw, dataOpt);
    m := Metrics(
      sizeRaw, sizeOpt, saved, savedPct,
      |dataRaw|, |dataOpt|, fcRaw, fcOpt,
      agentsRaw - agentsOpt, hasMeta, emptyRaw - emptyOpt, senders, ptKeys,
      [When(agentsRaw > agentsOpt, RemovedAgentText), When(emptyRaw > emptyOpt, RemovedAgentIdText)],
      [When(hasMeta, AddedMetaText)],
      [When(senders != 0, SenderText), When(ptKeys != 0, DataCollectText)]);
  }

  /** `compare_responses`: the `meta` test, which raises on a truthy `meta` that is not a
      dict, then the counters. */
  method CompareResponses(raw: Fields, opt: Fields, sizeRaw: nat, sizeOpt: nat) returns (r: Result<Metrics>)
    ensures r == Compare(raw, opt, sizeRaw, sizeOpt)
  {
    var meta := GetOrNull(opt, "meta");
    var hasMeta := false;
    if Truthy(meta) {
      if !meta.Obj? {
        return Failure;
      }
      hasMeta := Truthy(GetOrNull(meta.fields, "agent"));
    }
    var m := Measure(raw, opt, sizeRaw, sizeOpt, hasMeta);
    r := Ok(m);
  }

  // ---------------------------------------------------------------------------
  // What the metrics say about an optimizer run

  /** The raw dict entries with a sender whose tag differs from it. */
  function RetaggedEntries(es: seq<Json>): nat
  {
    if es == [] then 0
    else
      var e := es[0];
      (if e.Obj? && HasKey(e.fields, "sender")
          && GetOrNull(e.fields, "sender") != Str(NormalizeSender(GetOrNull(e.fields, "sender")))
       then 1 else 0) + RetaggedEntries(es[1..])
  }

  /** Over the raw records: the conversation entries whose sender the optimizer retags. */
  function RetaggedTotal(records: seq<Json>): nat
  {
    if records == [] then 0
    else (if records[0].Obj? then RetaggedEntries(ListOr(GetOrNull(records[0].fields, ConversationKey))) else 0)
         + RetaggedTotal(records[1..])
  }

  /** Over the raw records: the Portuguese keys of their `dataCollectFromUser` dicts. */
  function PtTotal(records: seq<Json>): nat
  {
    if records == [] then 0
    else (if records[0].Obj? then RecordPtKeys(records[0].fields) else 0) + PtTotal(records[1..])
  }

  lemma OptimizedRecordsCons(records: seq<Json>)
    requires records != []
    ensures OptimizedRecords(records)[1..] == OptimizedRecords(records[1..])
    ensures OptimizedRecords(records)[0].Obj? <==> records[0].Obj?
  {
  }

  /** A pair of entries where the optimized one is the raw one normalized counts exactly
      when the raw sender is not its own tag. */
  lemma {:induction false} SenderChangesAfterNormalize(es: seq<Json>)
    ensures SenderChanges(es, NormalizedEntries(es)) == RetaggedEntries(es)
  {
    if es != [] {
      var e := es[0];
      var n := NormalizedEntries(es);
      assert n[1..] == NormalizedEntries(es[1..]);
      if e.Obj? && HasKey(e.fields, "sender") {
        var tag := Str(NormalizeSender(GetOrNull(e.fields, "sender")));
        assert n[0] == Obj(Set(e.fields, "sender", tag));
        assert HasKey(n[0].fields, "sender") && GetOrNull(n[0].fields, "sender") == tag;
      }
      SenderChangesAfterNormalize(es[1..]);
    }
  }

  /** The record counts over a raw list and its optimized form. */
  lemma {:induction false} OptimizedCounts(records: seq<Json>)
    ensures ConversationTotal(OptimizedRecords(records)) == ConversationTotal(records)
    ensures AgentItems(OptimizedRecords(records)) == 0
    ensures EmptyAgentIdItems(OptimizedRecords(records)) == 0
    ensures ZipSenderChanges(records, OptimizedRecords(records)) == RetaggedTotal(records)
    ensures ZipPtKeys(records, OptimizedRecords(records)) == PtTotal(records)
  {
    if records != [] {
      OptimizedRecordsCons(records);
      OptimizedCounts(records[1..]);
      var o := OptimizedRecords(records);
      if records[0].Obj? {
        var f := records[0].fields;
        var g := OptimizedRecord(f);
        assert o[0] == Obj(g);
        assert GetOrNull(g, AgentKey) == Null;
        assert GetOrNull(g, AgentIdKey) != Arr([]);
        match GetOrNull(f, ConversationKey)
        case Arr(es) =>
          assert Get(f, ConversationKey) == Some(Arr(es));
          assert GetOrNull(g, ConversationKey) == Arr(NormalizedEntries(es));
          SenderChangesAfterNormalize(es);
        case _ =>
          assert !GetOrNull(g, ConversationKey).Arr?;
      }
    }
  }

  /** The top-level dict the optimizer returns for a dict document, when it succeeds. */
  function OptimizedFields(raw: Fields): Fields
  {
    match OptimizeReport(Obj(raw))
    case Ok(Obj(f)) => f
    case _ => []
  }

  /** The records of the optimized document are the raw records optimized. */
  lemma OptimizedReportRecords(raw: Fields)
    requires raw != [] && OptimizeReport(Obj(raw)).Ok?
    ensures OptimizeReport(Obj(raw)) == Ok(Obj(OptimizedFields(raw)))
    ensures RecordsOf(OptimizedFields(raw)) == OptimizedRecords(RecordsOf(raw))
  {
    OptimizeReportResult(Obj(raw));
    var opt := OptimizedFields(raw);
    if !DataIsList(raw) {
      assert RecordsOf(raw) == [];
      assert Get(opt, "data") == None;
    }
  }

  /** The optimized `meta`: the report's own unless an agent was lifted, in which case it
      is a dict holding the agent under `agent`. */
  lemma OptimizedMeta(raw: Fields)
    requires raw != [] && OptimizeReport(Obj(raw)).Ok?
    ensures LiftedAgent(RecordsOf(raw)) == [] ==> GetOrNull(OptimizedFields(raw), "meta") == GetOrNull(raw, "meta")
    ensures LiftedAgent(RecordsOf(raw)) != [] ==>
              GetOrNull(OptimizedFields(raw), "meta").Obj?
              && GetOrNull(GetOrNull(OptimizedFields(raw), "meta").fields, "agent") == Obj(LiftedAgent(RecordsOf(raw)))
  {
    OptimizedReportRecords(raw);
    OptimizeReportResult(Obj(raw));
    var rs := RecordsOf(raw);
    if LiftedAgent(rs) != [] {
      var meta := Set(MetaFieldsOf(raw), "agent", Obj(LiftedAgent(rs)));
      assert GetOrNull(OptimizedFields(raw), "meta") == Obj(meta);
    }
  }

  /** Comparing a report with what the optimizer made of it raises only when no agent was
      lifted and the report's own `meta` is truthy but not a dict. */
  lemma CompareAfterOptimizeFails(raw: Fields, sizeRaw: nat, sizeOpt: nat)
    requires raw != [] && OptimizeReport(Obj(raw)).Ok?
    ensures Compare(raw, OptimizedFields(raw), sizeRaw, sizeOpt).Failure?
            <==> LiftedAgent(RecordsOf(raw)) == [] && Truthy(GetOrNull(raw, "meta")) && !GetOrNull(raw, "meta").Obj?
  {
    OptimizedMeta(raw);
  }

  /** Comparing a report with what the optimizer made of it: the record count and the
      conversation entries are kept; every truthy `aiAgent` and every empty `agentId`
      counts as removed; a sender counts as normalized exactly when its tag differs from
      it; every Portuguese key of a dict `dataCollectFromUser` counts, `cpf` included;
      and `meta_agent_at_root` holds when an agent was lifted, and otherwise exactly when
      the report's own `meta` is a dict with a truthy `agent`. */
  lemma CompareAfterOptimize(raw: Fields, sizeRaw: nat, sizeOpt: nat)
    requires raw != [] && OptimizeReport(Obj(raw)).Ok?
    requires Compare(raw, OptimizedFields(raw), sizeRaw, sizeOpt).Ok?
    ensures var rs := RecordsOf(raw);
            var meta := GetOrNull(raw, "meta");
            var m := Compare(raw, OptimizedFields(raw), sizeRaw, sizeOpt).value;
            m.dataCountOptimized == m.dataCountRaw
            && m.conversationEntriesOptimized == m.conversationEntriesRaw
            && m.agentRemoved == AgentItems(rs)
            && m.emptyAgentIdRemoved == EmptyAgentIdItems(rs)
            && m.sendersNormalized == RetaggedTotal(rs)
            && m.ptKeysConsolidated == PtTotal(rs)
            && (LiftedAgent(rs) != [] ==> m.metaAgentAtRoot)
            && (LiftedAgent(rs) == [] ==>
                  (m.metaAgentAtRoot <==> meta.Obj? && Truthy(GetOrNull(meta.fields, "agent"))))
  {
    OptimizedReportRecords(raw);
    OptimizedCounts(RecordsOf(raw));
    OptimizedMeta(raw);
    if LiftedAgent(RecordsOf(raw)) != [] {
      var a := LiftedAgent(RecordsOf(raw));
      assert Truthy(Obj(a));
    }
  }

  /** An optimized report whose `meta` is a non-empty list: the optimizer passes it
      through (no record has an agent), the comparison then raises. */
  lemma CompareRaisesOnListMeta()
    ensures OptimizeReport(Obj([("meta", Arr([Null]))])) == Ok(Obj([("meta", Arr([Null]))]))
    ensures Compare([("meta", Arr([Null]))], [("meta", Arr([Null]))], 0, 0).Failure?
  {
    var raw: Fields := [("meta", Arr([Null]))];
    OptimizeReportResult(Obj(raw));
    assert RecordsOf(raw) == [];
    assert LiftedAgent([]) == [];
    var opt := OptimizeReport(Obj(raw)).value.fields;
    assert Get(opt, "meta") == Some(Arr([Null]));
    assert !HasKey(opt, "data");
    assert opt == raw;
  }

  // ---------------------------------------------------------------------------
  // save_comparison_report: what is written of the metrics

  /** The non-`None` entries of a list. */
  function NonNull(xs: seq<Json>): (r: seq<Json>)
    ensures |r| <= |xs|
    ensures forall x :: x in r <==> x in xs && x != Null
  {
    if xs == [] then []
    else (if xs[0] != Null then [xs[0]] else []) + NonNull(xs[1..])
  }

  /** What is written of one metric: scalars as they are, lists without their `None`
      entries, and nothing for any other value. */
  function Serializable(v: Json): (r: Option<Json>)
    ensures r.None? <==> v.Obj?
    ensures v.Arr? ==> r == Some(Arr(NonNull(v.items)))
    ensures !v.Arr? && !v.Obj? ==> r == Some(v)
  {
    match v
    case Arr(xs) => Some(Arr(NonNull(xs)))
    case Obj(_) => None
    case _ => Some(v)
  }

  /** The test of that loop for one value. */
  method SerializeOne(v: Json) returns (kept: Option<Json>)
    ensures kept == Serializable(v)
  {
    if v.Null? || v.Bool? || v.Num? || v.Float? || v.Str? {
      kept := Some(v);
    } else if v.Arr? {
      kept := Some(Arr(NonNull(v.items)));
    } else {
      kept := None;
    }
  }

  /** The loop that fills `metrics_serializable`. */
  method SerializeMetrics(metrics: Fields) returns (out: Fields)
    ensures out == AssignFrom([], metrics, Serializable)
  {
    out := [];
    var i := 0;
    while i < |metrics|
      invariant 0 <= i <= |metrics|
      invariant AssignFrom(out, metrics[i..], Serializable) == AssignFrom([], metrics, Serializable)
    {
      assert metrics[i..][1..] == metrics[i + 1..];
      var k := metrics[i].0;
      var kept := SerializeOne(metrics[i].1);
      AssignFromCons(out, metrics[i..], Serializable);
      if kept.Some? {
        out := Set(out, k, kept.value);
      }
      i := i + 1;
    }
    assert metrics[i..] == [];
  }

  /** A summary as JSON. */
  function SummaryJson(s: seq<Option<string>>): (r: seq<Json>)
    ensures |r| == |s|
    ensures forall i :: 0 <= i < |s| ==> (r[i] == Null <==> s[i].None?)
  {
    if s == [] then [] else [if s[0].Some? then Str(s[0].value) else Null] + SummaryJson(s[1..])
  }

  /** The number of entries that fired. */
  function Fired(s: seq<Option<string>>): nat
  {
    if s == [] then 0 else (if s[0].Some? then 1 else 0) + Fired(s[1..])
  }

  lemma {:induction false} NonNullSummary(s: seq<Option<string>>)
    ensures |NonNull(SummaryJson(s))| == Fired(s)
  {
    if s != [] {
      assert SummaryJson(s)[1..] == SummaryJson(s[1..]);
      NonNullSummary(s[1..]);
    }
  }

  /** The metrics dict, keys in the order `compare_responses` writes them. */
  function MetricsFields(m: Metrics): Fields
  {
    [("size_raw_bytes", Num(m.sizeRaw)),
     ("size_optimized_bytes", Num(m.sizeOptimized)),
     ("size_saved_bytes", Num(m.sizeSaved)),
     ("size_saved_percent", Float(m.sizeSavedPercent)),
     ("data_count_raw", Num(m.dataCountRaw)),
     ("data_count_optimized", Num(m.dataCountOptimized)),
     ("full_conversation_entries_raw", Num(m.conversationEntriesRaw)),
     ("full_conversation_entries_optimized", Num(m.conversationEntriesOptimized)),
     ("items_with_ai_agent_removed", Num(m.agentRemoved)),
     ("meta_agent_at_root", Bool(m.metaAgentAtRoot)),
     ("empty_agent_id_removed", Num(m.emptyAgentIdRemoved)),
     ("sender_entries_normalized", Num(m.sendersNormalized)),
     ("data_collect_pt_keys_consolidated", Num(m.ptKeysConsolidated)),
     ("summary_removed", Arr(SummaryJson(m.summaryRemoved))),
     ("summary_added", Arr(SummaryJson(m.summaryAdded))),
     ("summary_normalized", Arr(SummaryJson(m.summaryNormalized)))]
  }

  /** Keys that differ pairwise make a dict. */
  lemma {:induction false} DistinctKeysUnique(f: Fields)
    requires forall i, j :: 0 <= i < j < |f| ==> f[i].0 != f[j].0
    ensures UniqueKeys(f)
  {
    if f != [] {
      forall j | 0 <= j < |f| - 1 ensures f[1..][j].0 != f[0].0 {
        assert f[1..][j] == f[j + 1];
      }
      NotListed(f[1..], f[0].0);
      DistinctKeysUnique(f[1..]);
    }
  }

  lemma {:induction false} NotListed(f: Fields, k: string)
    requires forall j :: 0 <= j < |f| ==> f[j].0 != k
    ensures !HasKey(f, k)
  {
    if f != [] {
      NotListed(f[1..], k);
    }
  }

  /** The entry at index `i` is what a lookup of its key finds when no earlier entry has
      that key. */
  lemma {:induction false} GetAt(f: Fields, i: nat)
    requires i < |f|
    requires forall j :: 0 <= j < i ==> f[j].0 != f[i].0
    ensures Get(f, f[i].0) == Some(f[i].1)
  {
    if i > 0 {
      forall j | 0 <= j < i - 1 ensures f[1..][j].0 != f[1..][i - 1].0 {
        assert f[1..][j] == f[j + 1];
      }
      GetAt(f[1..], i - 1);
    }
  }

  lemma MetricsKeysDistinct(m: Metrics)
    ensures forall i, j :: 0 <= i < j < |MetricsFields(m)| ==> MetricsFields(m)[i].0 != MetricsFields(m)[j].0
  {
    var f := MetricsFields(m);
  }

  /** On any dict: a key keeps its scalar, loses the `None` entries of its list, or
      disappears when its value is a dict. */
  lemma SerializedMeaning(metrics: Fields, k: string)
    requires UniqueKeys(metrics)
    ensures Get(AssignFrom([], metrics, Serializable), k)
            == if HasKey(metrics, k) then Serializable(GetOrNull(metrics, k)) else None
  {
    AssignFromMeaning([], metrics, Serializable, k);
  }

  /** The written summaries list exactly the changes that happened. */
  lemma SerializedSummaries(m: Metrics)
    ensures Get(AssignFrom([], MetricsFields(m), Serializable), "summary_removed")
            == Some(Arr(NonNull(SummaryJson(m.summaryRemoved))))
    ensures |NonNull(SummaryJson(m.summaryRemoved))| == Fired(m.summaryRemoved)
    ensures Get(AssignFrom([], MetricsFields(m), Serializable), "summary_added")
            == Some(Arr(NonNull(SummaryJson(m.summaryAdded))))
    ensures |NonNull(SummaryJson(m.summaryAdded))| == Fired(m.summaryAdded)
    ensures Get(AssignFrom([], MetricsFields(m), Serializable), "summary_normalized")
            == Some(Arr(NonNull(SummaryJson(m.summaryNormalized))))
    ensures |NonNull(SummaryJson(m.summaryNormalized))| == Fired(m.summaryNormalized)
  {
    var f := MetricsFields(m);
    MetricsKeysDistinct(m);
    DistinctKeysUnique(f);
    SerializedMeaning(f, "summary_removed");
    GetAt(f, 13);
    NonNullSummary(m.summaryRemoved);
    SerializedMeaning(f, "summary_added");
    GetAt(f, 14);
    NonNullSummary(m.summaryAdded);
    SerializedMeaning(f, "summary_normalized");
    GetAt(f, 15);
    NonNullSummary(m.summaryNormalized);
  }

  // ---------------------------------------------------------------------------
  // generate_comparison_report: the changes section and the conclusion

  function AgentBullet(n: int): string
  {
    "- **aiAgent:** removido de " + IntToString(n) + " itens; primeiro agente extraído para `meta.agent`."
  }

  function AgentIdBullet(n: int): string
  {
    "- **agentId vazio:** removido de " + IntToString(n) + " itens."
  }

  function SenderBullet(n: int): string
  {
    "- **sender:** " + IntToString(n) + " entradas normalizadas para \"agent\" ou \"user\"."
  }

  function DataCollectBullet(n: int): string
  {
    "- **dataCollectFromUser:** " + IntToString(n) + " chaves em português consolidadas para inglês."
  }

  /** The bullets: one per optimization whose count is not zero, in a fixed order. */
  function Bullets(m: Metrics): (r: seq<string>)
    ensures |r| == (if m.agentRemoved != 0 then 1 else 0) + (if m.emptyAgentIdRemoved != 0 then 1 else 0)
                   + (if m.sendersNormalized != 0 then 1 else 0) + (if m.ptKeysConsolidated != 0 then 1 else 0)
    ensures m.agentRemoved != 0 ==> r[0] == AgentBullet(m.agentRemoved)
    ensures m.ptKeysConsolidated != 0 ==> r[|r| - 1] == DataCollectBullet(m.ptKeysConsolidated)
  {
    BulletIf(m.agentRemoved, AgentBullet(m.agentRemoved))
    + BulletIf(m.emptyAgentIdRemoved, AgentIdBullet(m.emptyAgentIdRemoved))
    + BulletIf(m.sendersNormalized, SenderBullet(m.sendersNormalized))
    + BulletIf(m.ptKeysConsolidated, DataCollectBullet(m.ptKeysConsolidated))
  }

  /** `[line]` when the count is not zero. */
  function BulletIf(n: int, line: string): seq<string>
  {
    if n != 0 then [line] else []
  }

  const YesPrefix := "Sim. O payload ficou **"
  const YesTail := "% menor**, com menos redundância (agente único em `meta.agent`, sem `aiAgent` "
    + "repetido em cada item). O front pode usar um único `meta.agent` e um formato de `sender` mais simples."
  const NoConclusion := "A otimização " + "reduz redundância e padroniza o formato (sender, dataCollectFromUser, meta.agent), mesmo quando a economia de bytes é pequena. O front se beneficia de uma estrutura mais limpa e previsível."

  lemma PrefixOfConcat(a: string, b: string)
    ensures |a + b| >= |a| && (a + b)[..|a|] == a
  {
  }

  /** The verdict: "Sim" with the percentage when the payload shrank, the structural
      argument otherwise. `pctText` is the percentage as Python prints it. */
  function Conclusion(savedPercent: real, pctText: string): (r: string)
    ensures |r| >= |YesPrefix|
    ensures savedPercent > 0.0 ==> r[..|YesPrefix|] == YesPrefix
    ensures savedPercent <= 0.0 ==> r == NoConclusion
    ensures r[..3] == "Sim" <==> savedPercent > 0.0
  {
    PrefixOfConcat(YesPrefix, pctText + YesTail);
    assert NoConclusion[0] == 'A';
    if savedPercent > 0.0 then YesPrefix + (pctText + YesTail) else NoConclusion
  }

  /** The bullets of `generate_comparison_report`, appended one optimization at a time. */
  method BuildBullets(m: Metrics) returns (bullets: seq<string>)
    ensures bullets == Bullets(m)
  {
    bullets := [];
    bullets := AppendBullet(bullets, m.agentRemoved, AgentBullet(m.agentRemoved));
    bullets := AppendBullet(bullets, m.emptyAgentIdRemoved, AgentIdBullet(m.emptyAgentIdRemoved));
    bullets := AppendBullet(bullets, m.sendersNormalized, SenderBullet(m.sendersNormalized));
    bullets := AppendBullet(bullets, m.ptKeysConsolidated, DataCollectBullet(m.ptKeysConsolidated));
  }

  /** `if n: lines.append(line)`. */
  method AppendBullet(bullets: seq<string>, n: int, line: string) returns (r: seq<string>)
    ensures r == bullets + BulletIf(n, line)
  {
    r := bullets;
    if n != 0 {
      r := r + [line];
    }
  }

  /** The tail of `generate_comparison_report`, from the changes heading to the end. */
  method ChangesSection(m: Metrics, pctText: string) returns (lines: seq<string>)
    ensures lines == ["## Alterações aplicadas", ""] + Bullets(m)
                     + ["", "## Conclusão: Valeu a pena?", "", Conclusion(m.sizeSavedPercent, pctText), ""]
  {
    var bullets := BuildBullets(m);
    lines := ["## Alterações aplicadas", ""] + bullets
             + ["", "## Conclusão: Valeu a pena?", "", Conclusion(m.sizeSavedPercent, pctText), ""];
  }

  /** After an optimizer run the aiAgent bullet and the first removal summary go together,
      and the report says "Sim" exactly when the payload shrank. */
  lemma ReportAfterOptimize(raw: Fields, sizeRaw: nat, sizeOpt: nat)
    requires raw != [] && OptimizeReport(Obj(raw)).Ok?
    requires Compare(raw, OptimizedFields(raw), sizeRaw, sizeOpt).Ok?
    ensures var m := Compare(raw, OptimizedFields(raw), sizeRaw, sizeOpt).value;
            (m.summaryRemoved[0].Some? <==> m.agentRemoved != 0)
            && (m.summaryRemoved[1].Some? <==> m.emptyAgentIdRemoved != 0)
            && (Conclusion(m.sizeSavedPercent, "")[..3] == "Sim" <==> sizeOpt < sizeRaw)
  {
    CompareAfterOptimize(raw, sizeRaw, sizeOpt);
  }

  // ---------------------------------------------------------------------------
  // _safe_suffix

  /** `_safe_suffix(params)`, the clock reading `now` given. */
  function SafeSuffixOf(params: Option<map<string, string>>, now: string): (r: string)
    ensures Storage.AllFileChars(r)
    ensures |r| == |Storage.SuffixFromParams(params, now)|
  {
    Storage.SafeSuffix(Storage.SuffixFromParams(params, now))
  }

  /** The comparison finds the files `save_raw` and `save_optimized` wrote without a
      timestamp: same folder-independent names, `raw_` and `optimized_` plus the safe
      suffix. */
  lemma SafeSuffixMatchesStorage(key: string, params: Option<map<string, string>>, now: string)
    ensures Storage.FileName("raw", key, params, None, now) == "raw_" + SafeSuffixOf(params, now) + ".json"
    ensures Storage.FileName("optimized", key, params, None, now) == "optimized_" + SafeSuffixOf(params, now) + ".json"
  {
    assert Storage.CacheSuffix(key, params, None, now) == Storage.SuffixFromParams(params, now);
  }
}
