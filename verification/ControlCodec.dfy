/** The control payload on the wire: compact JSON with sorted keys.
  *
  * Decoding is modelled for objects without repeated keys.
  */
module ControlCodec {
  import opened Decimals
  import opened GraphKeys
  import opened Json
  import opened Sequences
  import opened SortedJson
  import opened Wrappers

  datatype StageCounts = StageCounts(numTokens: seq<int>, maxTokens: int)

  datatype ControlPayload = ControlPayload(
    stages: map<int, StageCounts>, capturing: bool, warmup: bool, replaying: bool, profile: bool)

  /** The counts are 32-bit tensors on both sides. */
  predicate InInt32(n: int) {
    -0x8000_0000 <= n < 0x8000_0000
  }

  ghost predicate Carried(p: ControlPayload) {
    forall stage :: stage in p.stages ==>
      && InInt32(p.stages[stage].maxTokens)
      && forall i :: 0 <= i < |p.stages[stage].numTokens| ==> InInt32(p.stages[stage].numTokens[i])
  }

  // ---------- encoding ----------

  function Ints(ns: seq<int>): (items: seq<Value>)
    ensures |items| == |ns|
  {
    seq(|ns|, i requires 0 <= i < |ns| => Int(ns[i]))
  }

  function StageValue(s: StageCounts): Value {
    Obj([("max_tokens_across_dp_cpu", Int(s.maxTokens)), ("num_tokens_across_dp_cpu", Arr(Ints(s.numTokens)))])
  }

  function StageFields(stages: map<int, StageCounts>, order: seq<int>): (fields: seq<(string, Value)>)
    requires forall k :: 0 <= k < |order| ==> order[k] in stages
    ensures |fields| == |order|
  {
    seq(|order|, k requires 0 <= k < |order| => (Decimal(order[k]), StageValue(stages[order[k]])))
  }

  function Envelope(metadata: seq<(string, Value)>, p: ControlPayload): Value {
    Obj([("dp_metadata_list", Obj(metadata)),
         ("is_graph_capturing", Bool(p.capturing)),
         ("is_graph_replaying", Bool(p.replaying)),
         ("is_profile", Bool(p.profile)),
         ("is_warmup", Bool(p.warmup))])
  }

  /** The stages in the order of their keys' text: "10" comes before "2". */
  function Metadata(p: ControlPayload): seq<(string, Value)> {
    SortFields(StageFields(p.stages, Sorted(p.stages.Keys)))
  }

  function Wire(p: ControlPayload): Value {
    Envelope(Metadata(p), p)
  }

  function Encode(p: ControlPayload): string {
    Print(Wire(p))
  }

  /** The stage's object as it is filled, before its keys are sorted. */
  function RawStage(s: StageCounts): Value {
    Obj([("num_tokens_across_dp_cpu", Arr(Ints(s.numTokens))), ("max_tokens_across_dp_cpu", Int(s.maxTokens))])
  }

  function RawField(stages: map<int, StageCounts>, stage: int): (string, Value)
    requires stage in stages
  {
    (Decimal(stage), RawStage(stages[stage]))
  }

  function RawFields(stages: map<int, StageCounts>, order: seq<int>): (fields: seq<(string, Value)>)
    requires forall k :: 0 <= k < |order| ==> order[k] in stages
    ensures |fields| == |order|
  {
    seq(|order|, k requires 0 <= k < |order| => RawField(stages, order[k]))
  }

  function RawEnvelope(metadata: seq<(string, Value)>, p: ControlPayload): Value {
    Obj([("dp_metadata_list", Obj(metadata)),
         ("is_graph_capturing", Bool(p.capturing)),
         ("is_warmup", Bool(p.warmup)),
         ("is_graph_replaying", Bool(p.replaying)),
         ("is_profile", Bool(p.profile))])
  }

  /** The stages are filled in the order in which the dictionary happens to list them; the
    * bytes do not depend on it. */
  method EncodeControlPayload(p: ControlPayload) returns (bytes: string)
    ensures bytes == Encode(p)
  {
    hide RawField, RawEnvelope, Dump, Encode;
    var metadata: seq<(string, Value)> := [];
    var todo := p.stages.Keys;
    ghost var order: seq<int> := [];
    while todo != {}
      invariant todo <= p.stages.Keys && multiset(order) == multiset(p.stages.Keys - todo)
      invariant forall k :: 0 <= k < |order| ==> order[k] in p.stages
      invariant metadata == RawFields(p.stages, order)
      decreases todo
    {
      Inhabited(todo);
      var stage :| stage in todo;
      metadata := metadata + [RawField(p.stages, stage)];
      order := order + [stage];
      assert p.stages.Keys - (todo - {stage}) == p.stages.Keys - todo + {stage};
      todo := todo - {stage};
    }
    assert p.stages.Keys - {} == p.stages.Keys;
    DumpIsEncode(p, order);
    return Dump(RawEnvelope(metadata, p));
  }

  // ---------- decoding ----------

  function Lookup(fields: seq<(string, Value)>, key: string): Option<Value> {
    if fields == [] then None
    else if fields[0].0 == key then Some(fields[0].1)
    else Lookup(fields[1..], key)
  }

  function AsInt(v: Value): Option<int> {
    match v
    case Int(n) => Some(n)
    case Bool(b) => Some(if b then 1 else 0)
    case _ => None
  }

  function Truthy(v: Option<Value>): bool {
    match v
    case None => false
    case Some(Int(n)) => n != 0
    case Some(Bool(b)) => b
    case Some(Arr(items)) => items != []
    case Some(Obj(fields)) => fields != []
  }

  function DecodeCount(v: Value): Result<int, string> {
    match AsInt(v)
    case None => Error("not an integer")
    case Some(n) => if InInt32(n) then Ok(n) else Error("count does not fit 32 bits")
  }

  function DecodeCounts(items: seq<Value>): Result<seq<int>, string> {
    if items == [] then Ok([])
    else
      match DecodeCount(items[0])
      case Error(e) => Error(e)
      case Ok(n) =>
        match DecodeCounts(items[1..])
        case Error(e) => Error(e)
        case Ok(ns) => Ok([n] + ns)
  }

  function DecodeStage(v: Value): Result<StageCounts, string> {
    if !v.Obj? then Error("stage metadata is no object")
    else
      var nums, max := Lookup(v.fields, "num_tokens_across_dp_cpu"), Lookup(v.fields, "max_tokens_across_dp_cpu");
      if nums.None? || !nums.value.Arr? || max.None? then Error("missing counts")
      else
        match (DecodeCounts(nums.value.items), DecodeCount(max.value))
        case (Ok(ns), Ok(m)) => Ok(StageCounts(ns, m))
        case (Error(e), _) => Error(e)
        case (Ok(_), Error(e)) => Error(e)
  }

  function DecodeStages(fields: seq<(string, Value)>): Result<map<int, StageCounts>, string> {
    if fields == [] then Ok(map[])
    else
      var last := fields[|fields| - 1];
      match DecodeStages(fields[..|fields| - 1])
      case Error(e) => Error(e)
      case Ok(before) =>
        if !Readable(last.0) then Error("stage key is no integer")
        else
          match DecodeStage(last.1)
          case Error(e) => Error(e)
          case Ok(s) => Ok(before[ReadInt(last.0) := s])
  }

  function DecodeValue(v: Value): Result<ControlPayload, string> {
    if !v.Obj? then Error("payload is no object")
    else
      var stages := Lookup(v.fields, "dp_metadata_list");
      if stages.None? || !stages.value.Obj? then Error("missing dp_metadata_list")
      else
        match DecodeStages(stages.value.fields)
        case Error(e) => Error(e)
        case Ok(m) =>
          Ok(ControlPayload(m, Truthy(Lookup(v.fields, "is_graph_capturing")), Truthy(Lookup(v.fields, "is_warmup")),
                            Truthy(Lookup(v.fields, "is_graph_replaying")), Truthy(Lookup(v.fields, "is_profile"))))
  }

  function Decode(bytes: string): Result<ControlPayload, string> {
    match Parse(bytes)
    case None => Error("not JSON")
    case Some(v) => DecodeValue(v)
  }

  // ---------- the order of the keys ----------

  lemma DistinctStages(stages: set<int>)
    ensures Distinct(Sorted(stages))
  {
    SortedAscends(stages);
  }

  lemma MetadataAscends(p: ControlPayload)
    ensures Ascend(Names(Metadata(p)))
  {
    hide Decimal, StageValue, SortFields, Sorted, Ascend;
    var order := Sorted(p.stages.Keys);
    var names := Names(StageFields(p.stages, order));
    DistinctStages(p.stages.Keys);
    forall i, j | 0 <= i < j < |names| ensures names[i] != names[j] {
      if names[i] == names[j] {
        DecimalIsInjective(order[i], order[j]);
      }
    }
    SortAscends(StageFields(p.stages, order));
  }

  /** The sorted fields are those of the same stages in some order. */
  lemma MetadataOrder(p: ControlPayload) returns (order: seq<int>)
    ensures forall k :: 0 <= k < |order| ==> order[k] in p.stages
    ensures forall stage :: stage in order <==> stage in p.stages.Keys
    ensures Metadata(p) == StageFields(p.stages, order)
  {
    hide Decimal, StageValue, Readable, ReadInt, SortFields, Sorted;
    var sorted := Sorted(p.stages.Keys);
    var raw, fields := StageFields(p.stages, sorted), Metadata(p);
    forall k | 0 <= k < |fields|
      ensures Readable(fields[k].0) && ReadInt(fields[k].0) in p.stages
      ensures fields[k] == (Decimal(ReadInt(fields[k].0)), StageValue(p.stages[ReadInt(fields[k].0)]))
    {
      assert fields[k] in multiset(raw);
      var j :| 0 <= j < |raw| && raw[j] == fields[k];
      DecimalRoundTrip(sorted[j]);
    }
    order := seq(|fields|, k requires 0 <= k < |fields| => ReadInt(fields[k].0));
    forall stage | stage in p.stages ensures stage in order {
      SortedHas(p.stages.Keys, stage);
      var j :| 0 <= j < |sorted| && sorted[j] == stage;
      assert raw[j] in multiset(fields);
      var k :| 0 <= k < |fields| && fields[k] == raw[j];
      DecimalRoundTrip(stage);
      assert order[k] == stage;
    }
  }

  lemma {:induction false} FirstDifference(a: string, b: string, k: nat)
    requires k < |a| && k < |b| && a[..k] == b[..k] && a[k] < b[k]
    ensures TextLess(a, b)
  {
    if k > 0 {
      assert a[0] == a[..k][0] == b[..k][0] == b[0];
      assert a[1..][..k - 1] == a[..k][1..] && b[1..][..k - 1] == b[..k][1..];
      FirstDifference(a[1..], b[1..], k - 1);
    }
  }

  lemma GraphNamesOrder()
    ensures TextLess("is_graph_capturing", "is_graph_replaying")
    ensures TextLess("is_graph_capturing", "is_profile") && TextLess("is_graph_replaying", "is_profile")
  {
    hide TextLess;
    FirstDifference("is_graph_capturing", "is_graph_replaying", 9);
    FirstDifference("is_graph_capturing", "is_profile", 3);
    FirstDifference("is_graph_replaying", "is_profile", 3);
  }

  lemma FieldNamesOrder()
    ensures TextLess("dp_metadata_list", "is_graph_capturing")
    ensures TextLess("is_profile", "is_warmup")
    ensures TextLess("max_tokens_across_dp_cpu", "num_tokens_across_dp_cpu")
  {
    hide TextLess;
    FirstDifference("dp_metadata_list", "is_graph_capturing", 0);
    FirstDifference("is_profile", "is_warmup", 3);
    FirstDifference("max_tokens_across_dp_cpu", "num_tokens_across_dp_cpu", 0);
  }

  lemma {:induction false} StepsAscend(keys: seq<string>)
    requires forall j :: 1 <= j < |keys| ==> TextLess(keys[j - 1], keys[j])
    ensures Ascend(keys)
  {
    hide TextLess;
    if |keys| > 1 {
      StepsAscend(keys[1..]);
      forall j | 1 <= j < |keys| ensures TextLess(keys[0], keys[j]) {
        if j > 1 {
          assert TextLess(keys[1..][0], keys[1..][j - 1]);
          TextTransitive(keys[0], keys[1], keys[j]);
        }
      }
      forall i, j | 0 <= i < j < |keys| ensures TextLess(keys[i], keys[j]) {
        assert i > 0 ==> keys[i] == keys[1..][i - 1] && keys[j] == keys[1..][j - 1];
      }
    }
  }

  lemma PayloadNamesAscend()
    ensures Ascend(["dp_metadata_list", "is_graph_capturing", "is_graph_replaying", "is_profile", "is_warmup"])
  {
    GraphNamesOrder();
    FieldNamesOrder();
    hide TextLess, Ascend;
    StepsAscend(["dp_metadata_list", "is_graph_capturing", "is_graph_replaying", "is_profile", "is_warmup"]);
  }

  lemma StageNamesAscend()
    ensures Ascend(["max_tokens_across_dp_cpu", "num_tokens_across_dp_cpu"])
  {
    FieldNamesOrder();
    hide TextLess, Ascend;
    StepsAscend(["max_tokens_across_dp_cpu", "num_tokens_across_dp_cpu"]);
  }

  /** Every object of the payload is written with its keys sorted as text. */
  lemma KeysAreSorted(p: ControlPayload, s: StageCounts)
    ensures Ascend(Names(Wire(p).fields)) && Ascend(Names(Metadata(p))) && Ascend(Names(StageValue(s).fields))
  {
    MetadataAscends(p);
    PayloadNamesAscend();
    StageNamesAscend();
    hide TextLess, Ascend;
    assert Names(Wire(p).fields)
         == ["dp_metadata_list", "is_graph_capturing", "is_graph_replaying", "is_profile", "is_warmup"];
    assert Names(StageValue(s).fields) == ["max_tokens_across_dp_cpu", "num_tokens_across_dp_cpu"];
  }

  // ---------- sorting what was filled in any order ----------

  lemma SortedStage(s: StageCounts)
    ensures SortKeys(RawStage(s)) == StageValue(s)
  {
    StageNamesAscend();
    var items := Ints(s.numTokens);
    assert SortKeys(Arr(items)) == Arr(items);
    hide TextLess, Ascend;
    SortTwo(("max_tokens_across_dp_cpu", Int(s.maxTokens)), ("num_tokens_across_dp_cpu", Arr(items)));
  }

  lemma {:induction false} SortedIsAll(stages: set<int>)
    ensures multiset(Sorted(stages)) == multiset(stages)
    decreases stages
  {
    if stages != {} {
      LeastExists(stages);
      var m := Sorted(stages)[0];
      SortedIsAll(stages - {m});
      assert stages == stages - {m} + {m};
    }
  }

  lemma Without<T>(s: seq<T>, k: nat)
    requires k < |s|
    ensures multiset(s) == multiset{s[k]} + multiset(s[..k] + s[k + 1..])
  {
    assert s == s[..k] + [s[k]] + s[k + 1..];
  }

  lemma FieldsWithout(stages: map<int, StageCounts>, order: seq<int>, k: nat)
    requires k < |order| && forall i :: 0 <= i < |order| ==> order[i] in stages
    ensures multiset(StageFields(stages, order))
         == multiset{StageFields(stages, [order[k]])[0]} + multiset(StageFields(stages, order[..k] + order[k + 1..]))
  {
    hide Decimal, StageValue;
    var fields := StageFields(stages, order);
    Without(fields, k);
    assert StageFields(stages, order[..k] + order[k + 1..]) == fields[..k] + fields[k + 1..];
  }

  lemma Moved(a: seq<int>, b: seq<int>) returns (k: nat)
    requires multiset(a) == multiset(b) && a != []
    ensures k < |b| && b[k] == a[0] && multiset(a[1..]) == multiset(b[..k] + b[k + 1..])
  {
    assert a[0] in multiset(b);
    k :| 0 <= k < |b| && b[k] == a[0];
    Without(b, k);
    var front := [a[0]] + (b[..k] + b[k + 1..]);
    assert multiset(front) == multiset{a[0]} + multiset(b[..k] + b[k + 1..]);
    TailsAgree(a, front);
    assert front[1..] == b[..k] + b[k + 1..];
  }

  /** Listing the same stages in another order lists the same fields. */
  lemma {:induction false} FieldsPermute(stages: map<int, StageCounts>, a: seq<int>, b: seq<int>)
    requires forall k :: 0 <= k < |a| ==> a[k] in stages
    requires forall k :: 0 <= k < |b| ==> b[k] in stages
    requires multiset(a) == multiset(b)
    ensures multiset(StageFields(stages, a)) == multiset(StageFields(stages, b))
  {
    hide StageFields;
    if a == [] {
      assert |multiset(b)| == 0;
    } else {
      var k := Moved(a, b);
      FieldsWithout(stages, a, 0);
      FieldsWithout(stages, b, k);
      assert a[..0] + a[1..] == a[1..];
      FieldsPermute(stages, a[1..], b[..k] + b[k + 1..]);
    }
  }

  lemma SortedMetadata(p: ControlPayload, order: seq<int>)
    requires multiset(order) == multiset(p.stages.Keys) && forall k :: 0 <= k < |order| ==> order[k] in p.stages
    ensures SortKeys(Obj(RawFields(p.stages, order))) == Obj(Metadata(p))
  {
    hide TextLess, Ascend, Decimal, RawStage, StageValue, SortFields, Sorted;
    var fields := RawFields(p.stages, order);
    var each := SortEach(fields);
    forall k | 0 <= k < |order| ensures each[k] == StageFields(p.stages, order)[k] {
      SortedStage(p.stages[order[k]]);
      assert each[k] == SortField(fields[k]);
    }
    assert each == StageFields(p.stages, order);
    SortedIsAll(p.stages.Keys);
    FieldsPermute(p.stages, order, Sorted(p.stages.Keys));
    MetadataAscends(p);
    SortsTo(each, Metadata(p));
  }

  lemma SortedEnvelope(raw: seq<(string, Value)>, metadata: seq<(string, Value)>, p: ControlPayload)
    requires SortKeys(Obj(raw)) == Obj(metadata)
    ensures SortKeys(RawEnvelope(raw, p)) == Envelope(metadata, p)
  {
    PayloadNamesAscend();
    hide TextLess, Ascend, SortFields;
    SortFive(("dp_metadata_list", Obj(raw)),
             ("is_graph_capturing", Bool(p.capturing)),
             ("is_graph_replaying", Bool(p.replaying)),
             ("is_profile", Bool(p.profile)),
             ("is_warmup", Bool(p.warmup)));
  }

  lemma DumpIsEncode(p: ControlPayload, order: seq<int>)
    requires multiset(order) == multiset(p.stages.Keys) && forall k :: 0 <= k < |order| ==> order[k] in p.stages
    ensures Dump(RawEnvelope(RawFields(p.stages, order), p)) == Encode(p)
  {
    hide RawEnvelope, Envelope, SortKeys, Print, Metadata, RawFields;
    SortedMetadata(p, order);
    SortedEnvelope(RawFields(p.stages, order), Metadata(p), p);
  }

  // ---------- round trip ----------

  lemma KeysArePlain(stages: map<int, StageCounts>, order: seq<int>)
    requires forall k :: 0 <= k < |order| ==> order[k] in stages
    ensures Plain(Obj(StageFields(stages, order)))
  {
    forall k | 0 <= k < |order|
      ensures PlainKey(StageFields(stages, order)[k].0) && Plain(StageFields(stages, order)[k].1)
    {
      DigitsRoundTrip(if order[k] < 0 then -order[k] else order[k]);
      StageIsPlain(stages[order[k]]);
    }
  }

  lemma StageIsPlain(s: StageCounts)
    ensures Plain(StageValue(s))
  {
    var items := Ints(s.numTokens);
    assert Plain(Arr(items));
    assert PlainKey("max_tokens_across_dp_cpu") && PlainKey("num_tokens_across_dp_cpu");
  }

  lemma EnvelopeIsPlain(metadata: seq<(string, Value)>, p: ControlPayload)
    requires Plain(Obj(metadata))
    ensures Plain(Envelope(metadata, p))
  {
    assert PlainKey("dp_metadata_list") && PlainKey("is_graph_capturing") && PlainKey("is_graph_replaying");
    assert PlainKey("is_profile") && PlainKey("is_warmup");
    hide PlainKey;
  }

  lemma WireIsPlain(p: ControlPayload)
    ensures Plain(Wire(p))
  {
    hide Plain, Envelope, Metadata;
    var order := MetadataOrder(p);
    KeysArePlain(p.stages, order);
    EnvelopeIsPlain(Metadata(p), p);
  }

  lemma {:induction false} CountsRoundTrip(ns: seq<int>)
    requires forall i :: 0 <= i < |ns| ==> InInt32(ns[i])
    ensures DecodeCounts(Ints(ns)) == Ok(ns)
  {
    if ns != [] {
      assert Ints(ns)[1..] == Ints(ns[1..]);
      CountsRoundTrip(ns[1..]);
      assert ns == [ns[0]] + ns[1..];
    }
  }

  lemma StageRoundTrip(s: StageCounts)
    requires InInt32(s.maxTokens) && forall i :: 0 <= i < |s.numTokens| ==> InInt32(s.numTokens[i])
    ensures DecodeStage(StageValue(s)) == Ok(s)
  {
    CountsRoundTrip(s.numTokens);
    var fields := StageValue(s).fields;
    assert fields[1..][0].0 == "num_tokens_across_dp_cpu" && "max_tokens_across_dp_cpu" != "num_tokens_across_dp_cpu";
    hide DecodeCounts, DecodeCount;
    assert Lookup(fields, "num_tokens_across_dp_cpu") == Some(Arr(Ints(s.numTokens)));
    assert Lookup(fields, "max_tokens_across_dp_cpu") == Some(Int(s.maxTokens));
  }

  lemma {:induction false} StagesRoundTrip(p: ControlPayload, order: seq<int>)
    requires Carried(p) && forall k :: 0 <= k < |order| ==> order[k] in p.stages
    ensures DecodeStages(StageFields(p.stages, order)) == Ok(map stage | stage in order :: p.stages[stage])
  {
    hide DecodeStage, StageValue, Decimal, Readable, ReadInt;
    var decoded := map stage | stage in order :: p.stages[stage];
    if order == [] {
      assert decoded == map[];
    } else {
      var n := |order| - 1;
      StagesRoundTrip(p, order[..n]);
      assert StageFields(p.stages, order)[..n] == StageFields(p.stages, order[..n]);
      DecimalRoundTrip(order[n]);
      StageRoundTrip(p.stages[order[n]]);
      assert order == order[..n] + [order[n]];
      assert decoded == (map stage | stage in order[..n] :: p.stages[stage])[order[n] := p.stages[order[n]]];
    }
  }

  lemma {:induction false} LookupAt(fields: seq<(string, Value)>, k: nat)
    requires k < |fields| && forall j :: 0 <= j < k ==> fields[j].0 != fields[k].0
    ensures Lookup(fields, fields[k].0) == Some(fields[k].1)
  {
    if k > 0 {
      LookupAt(fields[1..], k - 1);
    }
  }

  lemma FieldsDiffer()
    ensures |"dp_metadata_list"| == 16 && |"is_profile"| == 10 && |"is_warmup"| == 9
    ensures |"is_graph_capturing"| == |"is_graph_replaying"| == 18 && "is_graph_capturing" != "is_graph_replaying"
  {
    assert "is_graph_capturing"[9] != "is_graph_replaying"[9];
  }

  lemma EnvelopeRoundTrip(metadata: seq<(string, Value)>, p: ControlPayload)
    requires DecodeStages(metadata) == Ok(p.stages)
    ensures DecodeValue(Envelope(metadata, p)) == Ok(p)
  {
    var fields := Envelope(metadata, p).fields;
    FieldsDiffer();
    LookupAt(fields, 0);
    LookupAt(fields, 1);
    LookupAt(fields, 2);
    LookupAt(fields, 3);
    LookupAt(fields, 4);
    hide Lookup, DecodeStages;
  }

  lemma SameStages(stages: map<int, StageCounts>, order: seq<int>)
    requires forall stage :: stage in order <==> stage in stages.Keys
    ensures (map stage | stage in order :: stages[stage]) == stages
  {
    var decoded := map stage | stage in order :: stages[stage];
    forall stage | stage in stages ensures stage in decoded {
      assert stage in order;
    }
    forall stage | stage in decoded ensures stage in stages {
      assert stage in order;
    }
  }

  /** Decoding what was encoded gives back the stages, counts, maxima and flags. */
  lemma DecodeEncode(p: ControlPayload)
    requires Carried(p)
    ensures Decode(Encode(p)) == Ok(p)
  {
    hide Parse, Print, Metadata, DecodeStages, DecodeValue, StageFields, Plain, Envelope;
    var order := MetadataOrder(p);
    StagesRoundTrip(p, order);
    SameStages(p.stages, order);
    EnvelopeRoundTrip(Metadata(p), p);
    WireIsPlain(p);
    ParsePrint(Wire(p));
  }

  lemma {:induction false} CountsFit(ns: seq<int>)
    requires DecodeCounts(Ints(ns)).Ok?
    ensures forall i :: 0 <= i < |ns| ==> -2147483648 <= ns[i] <= 2147483647
  {
    if ns != [] {
      assert Ints(ns)[1..] == Ints(ns[1..]) && Ints(ns)[0] == Int(ns[0]);
      CountsFit(ns[1..]);
      assert ns == [ns[0]] + ns[1..];
    }
  }

  lemma StageFits(s: StageCounts)
    requires DecodeStage(StageValue(s)).Ok?
    ensures -2147483648 <= s.maxTokens <= 2147483647
    ensures forall i :: 0 <= i < |s.numTokens| ==> -2147483648 <= s.numTokens[i] <= 2147483647
  {
    var fields := StageValue(s).fields;
    assert fields[1..][0].0 == "num_tokens_across_dp_cpu" && "max_tokens_across_dp_cpu" != "num_tokens_across_dp_cpu";
    assert Lookup(fields, "num_tokens_across_dp_cpu") == Some(Arr(Ints(s.numTokens)));
    assert Lookup(fields, "max_tokens_across_dp_cpu") == Some(Int(s.maxTokens));
    hide DecodeCounts, Lookup;
    CountsFit(s.numTokens);
  }

  lemma {:induction false} StagesDecode(fields: seq<(string, Value)>, k: nat)
    requires DecodeStages(fields).Ok? && k < |fields|
    ensures DecodeStage(fields[k].1).Ok?
    decreases |fields|
  {
    hide DecodeStage;
    if k < |fields| - 1 {
      StagesDecode(fields[..|fields| - 1], k);
    }
  }

  /** The round trip holds for exactly the payloads whose counts fit the 32-bit tensors; any
    * other payload is rejected by the receiver. */
  lemma RoundTripIff(p: ControlPayload)
    ensures Decode(Encode(p)).Ok? <==> Decode(Encode(p)) == Ok(p)
    ensures Decode(Encode(p)) == Ok(p) <==>
              forall stage :: stage in p.stages ==>
                var StageCounts(ns, max) := p.stages[stage];
                -2147483648 <= max <= 2147483647
                && forall i :: 0 <= i < |ns| ==> -2147483648 <= ns[i] <= 2147483647
  {
    if Carried(p) {
      DecodeEncode(p);
    }
    if Decode(Encode(p)).Ok? {
      forall stage | stage in p.stages
        ensures -2147483648 <= p.stages[stage].maxTokens <= 2147483647
        ensures forall i :: 0 <= i < |p.stages[stage].numTokens| ==>
                  -2147483648 <= p.stages[stage].numTokens[i] <= 2147483647
      {
        StageMustFit(p, stage);
      }
    }
    hide Decode, Encode;
  }

  lemma StageMustFit(p: ControlPayload, stage: int)
    requires Decode(Encode(p)).Ok? && stage in p.stages
    ensures DecodeStage(StageValue(p.stages[stage])).Ok?
    ensures -2147483648 <= p.stages[stage].maxTokens <= 2147483647
    ensures forall i :: 0 <= i < |p.stages[stage].numTokens| ==>
              -2147483648 <= p.stages[stage].numTokens[i] <= 2147483647
  {
    WireIsPlain(p);
    ParsePrint(Wire(p));
    var order := MetadataOrder(p);
    LookupAt(Wire(p).fields, 0);
    hide Parse, Print, Metadata, DecodeStages, DecodeStage, Plain, Lookup, StageValue, Decimal;
    assert stage in order;
    var k :| 0 <= k < |order| && order[k] == stage;
    StagesDecode(Metadata(p), k);
    StageFits(p.stages[stage]);
  }

  /** Hence different payloads are never written the same. */
  lemma EncodeIsInjective(p: ControlPayload, q: ControlPayload)
    requires Carried(p) && Carried(q) && Encode(p) == Encode(q)
    ensures p == q
  {
    hide Encode, Decode;
    DecodeEncode(p);
    DecodeEncode(q);
  }

  // ---------- the bytes of a payload with one stage ----------

  function FlagText(b: bool): string {
    if b then "true" else "false"
  }

  function FieldText(name: string, value: string): string {
    "\"" + name + "\":" + value
  }

  lemma PrintTwo(f: (string, Value), g: (string, Value))
    ensures PrintFields([f, g]) == PrintField(f) + "," + PrintField(g)
  {
    assert [f, g][1..] == [g];
    hide PrintField;
  }

  lemma PrintNext(f: (string, Value), rest: seq<(string, Value)>)
    requires rest != []
    ensures PrintFields([f] + rest) == PrintField(f) + "," + PrintFields(rest)
  {
    assert ([f] + rest)[1..] == rest;
    hide PrintField;
  }

  lemma PrintFive(a: (string, Value), b: (string, Value), c: (string, Value), d: (string, Value), e: (string, Value))
    ensures PrintFields([a, b, c, d, e])
         == PrintField(a) + "," + (PrintField(b) + "," + (PrintField(c) + "," + (PrintField(d) + "," + PrintField(e))))
  {
    hide PrintField, PrintFields;
    PrintTwo(d, e);
    PrintNext(c, [d, e]);
    PrintNext(b, [c, d, e]);
    PrintNext(a, [b, c, d, e]);
    assert [c] + [d, e] == [c, d, e] && [b] + [c, d, e] == [b, c, d, e] && [a] + [b, c, d, e] == [a, b, c, d, e];
  }

  lemma CountsText(x: int, y: int)
    ensures Print(Arr(Ints([x, y]))) == "[" + (Decimal(x) + "," + Decimal(y)) + "]"
  {
    hide Decimal;
    var items := [Int(x), Int(y)];
    assert Ints([x, y]) == items && items[1..] == [Int(y)];
    assert PrintItems([Int(y)]) == Decimal(y);
    assert PrintItems(items) == Decimal(x) + "," + Decimal(y);
  }

  lemma StageText(max: int, x: int, y: int)
    ensures Print(StageValue(StageCounts([x, y], max)))
         == "{" + (FieldText("max_tokens_across_dp_cpu", Decimal(max)) + ","
                   + FieldText("num_tokens_across_dp_cpu", "[" + (Decimal(x) + "," + Decimal(y)) + "]")) + "}"
  {
    CountsText(x, y);
    PrintTwo(("max_tokens_across_dp_cpu", Int(max)), ("num_tokens_across_dp_cpu", Arr(Ints([x, y]))));
    hide Decimal, PrintFields, PrintItems, Ints;
  }

  lemma OneStageMetadata(p: ControlPayload, stage: int, s: StageCounts)
    requires p.stages == map[stage := s]
    ensures Metadata(p) == [(Decimal(stage), StageValue(s))]
  {
    hide Decimal, StageValue;
    LeastExists({stage});
    assert {stage} - {stage} == {} && p.stages.Keys == {stage};
    assert Sorted({stage}) == [stage];
    var f := (Decimal(stage), StageValue(s));
    assert StageFields(p.stages, [stage]) == [f];
    hide Sorted, StageFields;
    SortsOne(f);
  }

  lemma SortsOne(f: (string, Value))
    ensures SortFields([f]) == [f]
  {
    assert [f][1..] == [] && SortFields([]) == [];
  }

  lemma FlagFieldText(name: string, b: bool)
    ensures PrintField((name, Bool(b))) == FieldText(name, FlagText(b))
  {
  }

  lemma AnyFieldText(name: string, v: Value)
    ensures PrintField((name, v)) == FieldText(name, Print(v))
  {
  }

  lemma ObjectText(fields: seq<(string, Value)>)
    ensures Print(Obj(fields)) == "{" + PrintFields(fields) + "}"
  {
  }

  lemma OneFieldText(name: string, v: Value)
    ensures Print(Obj([(name, v)])) == "{" + FieldText(name, Print(v)) + "}"
  {
    hide Print, FieldText, PrintField;
    AnyFieldText(name, v);
    ObjectText([(name, v)]);
    assert PrintFields([(name, v)]) == PrintField((name, v));
  }

  lemma EnvelopeText(metadata: seq<(string, Value)>, p: ControlPayload)
    ensures Print(Envelope(metadata, p))
         == "{" + (FieldText("dp_metadata_list", Print(Obj(metadata))) + ","
                   + (FieldText("is_graph_capturing", FlagText(p.capturing)) + ","
                      + (FieldText("is_graph_replaying", FlagText(p.replaying)) + ","
                         + (FieldText("is_profile", FlagText(p.profile)) + ","
                            + FieldText("is_warmup", FlagText(p.warmup)))))) + "}"
  {
    hide Print, PrintFields, PrintField, FieldText, FlagText;
    assert Envelope(metadata, p).Obj?;
    FlagFieldText("is_graph_capturing", p.capturing);
    FlagFieldText("is_graph_replaying", p.replaying);
    FlagFieldText("is_profile", p.profile);
    FlagFieldText("is_warmup", p.warmup);
    PrintFive(("dp_metadata_list", Obj(metadata)), ("is_graph_capturing", Bool(p.capturing)),
              ("is_graph_replaying", Bool(p.replaying)), ("is_profile", Bool(p.profile)),
              ("is_warmup", Bool(p.warmup)));
    AnyFieldText("dp_metadata_list", Obj(metadata));
    ObjectText(Envelope(metadata, p).fields);
  }

  /** The text of a payload for one stage and two data-parallel ranks, character by character. */
  lemma PayloadText(stage: int, max: int, x: int, y: int, capturing: bool, warmup: bool, replaying: bool, profile: bool)
    ensures Encode(ControlPayload(map[stage := StageCounts([x, y], max)], capturing, warmup, replaying, profile))
         == "{" + (FieldText("dp_metadata_list",
                             "{" + FieldText(Decimal(stage),
                               "{" + (FieldText("max_tokens_across_dp_cpu", Decimal(max)) + ","
                                 + FieldText("num_tokens_across_dp_cpu", "[" + (Decimal(x) + "," + Decimal(y)) + "]"))
                               + "}") + "}") + ","
                   + (FieldText("is_graph_capturing", FlagText(capturing)) + ","
                      + (FieldText("is_graph_replaying", FlagText(replaying)) + ","
                         + (FieldText("is_profile", FlagText(profile)) + ","
                            + FieldText("is_warmup", FlagText(warmup)))))) + "}"
  {
    hide Metadata, StageValue, Decimal, Print, FieldText, FlagText, Envelope;
    var s := StageCounts([x, y], max);
    var p := ControlPayload(map[stage := s], capturing, warmup, replaying, profile);
    OneStageMetadata(p, stage, s);
    StageText(max, x, y);
    OneFieldText(Decimal(stage), StageValue(s));
    EnvelopeText(Metadata(p), p);
  }

  lemma OtherField(f: (string, Value), name: string)
    requires f.0 != name
    ensures Lookup([f], name) == None
  {
    assert [f][1..] == [];
  }

  /** Flags that the sender left out are off. */
  lemma AbsentFlagsAreOff(metadata: seq<(string, Value)>)
    requires DecodeStages(metadata).Ok?
    ensures DecodeValue(Obj([("dp_metadata_list", Obj(metadata))]))
         == Ok(ControlPayload(DecodeStages(metadata).value, false, false, false, false))
  {
    FieldsDiffer();
    var f := ("dp_metadata_list", Obj(metadata));
    LookupAt([f], 0);
    OtherField(f, "is_graph_capturing");
    OtherField(f, "is_graph_replaying");
    OtherField(f, "is_profile");
    OtherField(f, "is_warmup");
    hide DecodeStages, Lookup;
  }
}
