/** The execution mode that the FFN ranks' published plans agree on. */
module FfnMode {
  import opened Sequences
  import opened Wrappers

  datatype FFNGraphPlan = FFNGraphPlan(
    requested: string, graphError: string, signature: string, layerIds: seq<int>,
    streamSignature: string, streamError: string)

  datatype Rejection =
    | ModesDiffer
    | StreamSignaturesDiffer
    | TwoStreamUnsupported(reasons: seq<string>)
    | UnknownMode
    | Unsupported(execution: string, reasons: seq<string>)
    | NeedsSignature(execution: string)
    | LayerTablesDiffer

  const SIGNATURES_DIFFER := "FFN graph signatures differ across ranks"

  function StreamErrors(plans: seq<FFNGraphPlan>): seq<string> {
    if plans == [] then []
    else (if plans[0].streamError != "" then [plans[0].streamError] else []) + StreamErrors(plans[1..])
  }

  function GraphErrors(plans: seq<FFNGraphPlan>): seq<string> {
    if plans == [] then []
    else (if plans[0].graphError != "" then [plans[0].graphError] else []) + GraphErrors(plans[1..])
  }

  /** Each text once, in order of first appearance. */
  function Dedup(texts: seq<string>): seq<string> {
    if texts == [] then []
    else
      var n := |texts| - 1;
      var before := Dedup(texts[..n]);
      if texts[n] in before then before else before + [texts[n]]
  }

  function Requests(plans: seq<FFNGraphPlan>): set<string> {
    set p | p in plans :: p.requested
  }

  function StreamSignatures(plans: seq<FFNGraphPlan>): set<string> {
    set p | p in plans :: p.streamSignature
  }

  function Signatures(plans: seq<FFNGraphPlan>): set<string> {
    set p | p in plans && p.graphError == "" :: p.signature
  }

  function LayerTables(plans: seq<FFNGraphPlan>): set<seq<int>> {
    set p | p in plans :: p.layerIds
  }

  function ResolveFfnMode(plans: seq<FFNGraphPlan>): Result<string, Rejection> {
    if plans == [] || |Requests(plans)| != 1 then Error(ModesDiffer)
    else if |StreamSignatures(plans)| != 1 then Error(StreamSignaturesDiffer)
    else if StreamErrors(plans) != [] then Error(TwoStreamUnsupported(StreamErrors(plans)))
    else
      var mode := plans[0].requested;
      if mode == "eager" && plans[0].streamSignature == "" then Ok("eager")
      else if mode !in {"eager", "full"} then Error(UnknownMode)
      else
        var execution := if mode == "full" then "FULL" else "two-stream";
        var errors := GraphErrors(plans) + if |Signatures(plans)| > 1 then [SIGNATURES_DIFFER] else [];
        if errors != [] then Error(Unsupported(execution, Dedup(errors)))
        else if plans[0].signature == "" || plans[0].layerIds == [] then Error(NeedsSignature(execution))
        else if |LayerTables(plans)| != 1 then Error(LayerTablesDiffer)
        else Ok(mode)
  }

  /** What one plan must say to go along with `lead`. */
  predicate GoesAlong(p: FFNGraphPlan, lead: FFNGraphPlan) {
    && p.requested == lead.requested && p.streamSignature == lead.streamSignature && p.streamError == ""
    && ((lead.requested == "eager" && lead.streamSignature == "")
        || (&& lead.requested in {"eager", "full"}
            && p.graphError == "" && p.signature == lead.signature != "" && p.layerIds == lead.layerIds != []))
  }

  predicate AllAgree(plans: seq<FFNGraphPlan>) {
    plans != [] && forall p :: p in plans ==> GoesAlong(p, plans[0])
  }

  lemma OneValue<T>(s: set<T>, x: T)
    requires x in s
    ensures |s| >= 1 && (|s| == 1 <==> forall y :: y in s ==> y == x)
  {
    var rest := s - {x};
    assert |s| == |rest| + 1;
    assert |rest| == 0 <==> rest == {};
    if forall y :: y in s ==> y == x {
      assert rest == {};
    } else {
      var y :| y in s && y != x;
      assert y in rest;
    }
  }

  lemma {:induction false} NoStreamErrors(plans: seq<FFNGraphPlan>)
    ensures StreamErrors(plans) == [] <==> forall p :: p in plans ==> p.streamError == ""
  {
    if plans != [] {
      NoStreamErrors(plans[1..]);
      assert forall p :: p in plans <==> p == plans[0] || p in plans[1..];
    }
  }

  lemma {:induction false} NoGraphErrors(plans: seq<FFNGraphPlan>)
    ensures GraphErrors(plans) == [] <==> forall p :: p in plans ==> p.graphError == ""
  {
    if plans != [] {
      NoGraphErrors(plans[1..]);
      assert forall p :: p in plans <==> p == plans[0] || p in plans[1..];
    }
  }

  lemma OneRequest(plans: seq<FFNGraphPlan>)
    requires plans != []
    ensures |Requests(plans)| == 1 <==> forall p :: p in plans ==> p.requested == plans[0].requested
  {
    assert plans[0] in plans;
    OneValue(Requests(plans), plans[0].requested);
    assert forall p :: p in plans ==> p.requested in Requests(plans);
  }

  lemma OneStreamSignature(plans: seq<FFNGraphPlan>)
    requires plans != []
    ensures |StreamSignatures(plans)| == 1 <==> forall p :: p in plans ==> p.streamSignature == plans[0].streamSignature
  {
    assert plans[0] in plans;
    OneValue(StreamSignatures(plans), plans[0].streamSignature);
    assert forall p :: p in plans ==> p.streamSignature in StreamSignatures(plans);
  }

  lemma OneSignature(plans: seq<FFNGraphPlan>)
    requires plans != [] && forall p :: p in plans ==> p.graphError == ""
    ensures |Signatures(plans)| <= 1 <==> forall p :: p in plans ==> p.signature == plans[0].signature
  {
    assert plans[0] in plans;
    OneValue(Signatures(plans), plans[0].signature);
    assert forall p :: p in plans ==> p.signature in Signatures(plans);
  }

  lemma OneLayerTable(plans: seq<FFNGraphPlan>)
    requires plans != []
    ensures |LayerTables(plans)| == 1 <==> forall p :: p in plans ==> p.layerIds == plans[0].layerIds
  {
    assert plans[0] in plans;
    OneValue(LayerTables(plans), plans[0].layerIds);
    assert forall p :: p in plans ==> p.layerIds in LayerTables(plans);
  }

  /** Plans are accepted exactly when they all say the same and each says nothing against it. */
  lemma AcceptedIff(plans: seq<FFNGraphPlan>)
    ensures ResolveFfnMode(plans).Ok? <==> AllAgree(plans)
    ensures AllAgree(plans) ==> ResolveFfnMode(plans).value == plans[0].requested
  {
    if plans != [] {
      assert plans[0] in plans;
      OneRequest(plans);
      OneStreamSignature(plans);
      NoStreamErrors(plans);
      NoGraphErrors(plans);
      OneLayerTable(plans);
      hide Requests, StreamSignatures, Signatures, LayerTables, StreamErrors, GraphErrors;
      if forall p :: p in plans ==> p.graphError == "" {
        OneSignature(plans);
      }
    }
  }

  /** The outcome does not depend on which rank holds which plan. */
  lemma OrderIsIgnored(plans: seq<FFNGraphPlan>, others: seq<FFNGraphPlan>)
    requires forall p :: p in plans <==> p in others
    ensures ResolveFfnMode(plans).Ok? == ResolveFfnMode(others).Ok?
    ensures ResolveFfnMode(plans).Ok? ==> ResolveFfnMode(plans).value == ResolveFfnMode(others).value
  {
    AcceptedIff(plans);
    AcceptedIff(others);
    if plans != [] {
      assert plans[0] in others;
    }
    if others != [] {
      assert others[0] in plans;
    }
  }

  lemma {:induction false} DedupKeeps(texts: seq<string>)
    ensures Distinct(Dedup(texts))
    ensures forall t :: t in Dedup(texts) <==> t in texts
  {
    if texts != [] {
      var n := |texts| - 1;
      DedupKeeps(texts[..n]);
      assert texts == texts[..n] + [texts[n]];
    }
  }

  lemma {:induction false} GraphErrorsAre(plans: seq<FFNGraphPlan>)
    ensures forall t :: t in GraphErrors(plans) <==> t != "" && exists p :: p in plans && p.graphError == t
  {
    if plans != [] {
      GraphErrorsAre(plans[1..]);
      assert forall p :: p in plans <==> p == plans[0] || p in plans[1..];
    }
  }

  lemma TwoSignatures(plans: seq<FFNGraphPlan>)
    ensures |Signatures(plans)| > 1 <==> SignaturesDiffer(plans)
  {
    if p, q :| p in plans && q in plans && p.graphError == q.graphError == "" && p.signature != q.signature {
      OneValue(Signatures(plans), p.signature);
      assert q.signature in Signatures(plans);
    } else if Signatures(plans) != {} {
      var x :| x in Signatures(plans);
      OneValue(Signatures(plans), x);
    }
  }

  /** Two ranks without an error report different signatures. */
  ghost predicate SignaturesDiffer(plans: seq<FFNGraphPlan>) {
    exists p, q :: p in plans && q in plans && p.graphError == q.graphError == "" && p.signature != q.signature
  }

  /** A rejected graph mode lists every rank's reason and a signature mismatch, each once, and
    * nothing else. */
  lemma ReasonsAreComplete(plans: seq<FFNGraphPlan>)
    requires ResolveFfnMode(plans).Error? && ResolveFfnMode(plans).error.Unsupported?
    ensures var reasons := ResolveFfnMode(plans).error.reasons;
            && reasons != [] && Distinct(reasons)
            && forall t :: t in reasons <==>
                 || (t != "" && exists p :: p in plans && p.graphError == t)
                 || (t == SIGNATURES_DIFFER && SignaturesDiffer(plans))
  {
    var mismatch := if |Signatures(plans)| > 1 then [SIGNATURES_DIFFER] else [];
    var errors := GraphErrors(plans) + mismatch;
    DedupKeeps(errors);
    GraphErrorsAre(plans);
    TwoSignatures(plans);
    hide Signatures, SignaturesDiffer, GraphErrors, Dedup, Requests, StreamSignatures;
    assert errors[0] in errors;
    forall t ensures t in errors <==> t in GraphErrors(plans) || t in mismatch {
    }
  }

  /** Why plans are rejected: the first of these that applies is reported. */
  lemma RejectionIs(plans: seq<FFNGraphPlan>)
    ensures var r := ResolveFfnMode(plans);
            if plans == [] || exists p :: p in plans && p.requested != plans[0].requested then r == Error(ModesDiffer)
            else if exists p :: p in plans && p.streamSignature != plans[0].streamSignature then
              r == Error(StreamSignaturesDiffer)
            else if exists p :: p in plans && p.streamError != "" then r.Error? && r.error.TwoStreamUnsupported?
            else if plans[0].requested == "eager" && plans[0].streamSignature == "" then r == Ok("eager")
            else if plans[0].requested != "eager" && plans[0].requested != "full" then r == Error(UnknownMode)
            else if (exists p :: p in plans && p.graphError != "") || SignaturesDiffer(plans) then
              r.Error? && r.error.Unsupported? && (r.error.execution == "FULL" <==> plans[0].requested == "full")
            else if plans[0].signature == "" || plans[0].layerIds == [] then r.Error? && r.error.NeedsSignature?
            else if exists p :: p in plans && p.layerIds != plans[0].layerIds then r == Error(LayerTablesDiffer)
            else r == Ok(plans[0].requested)
  {
    if plans != [] {
      OneRequest(plans);
      OneStreamSignature(plans);
      NoStreamErrors(plans);
      NoGraphErrors(plans);
      OneLayerTable(plans);
      TwoSignatures(plans);
      TwoStreamIsNotFull();
      hide Requests, StreamSignatures, Signatures, LayerTables, StreamErrors, GraphErrors, SignaturesDiffer, Dedup;
    }
  }

  lemma TwoStreamIsNotFull()
    ensures "FULL" != "two-stream"
  {
    assert |"FULL"| == 4;
  }
}
