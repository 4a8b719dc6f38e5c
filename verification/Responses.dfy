/**
  What the writer makes of a successful response (otlp/transport.go): how many records to count as
  rejected, and which event to report.
*/
module Responses {
  import opened Wire

  datatype Event = Malformed | Rejected(count: nat, message: bytes) | Warning(message: bytes)
  datatype Acceptance = Acceptance(rejected: nat, event: Option<Event>)

  /** `classifyAccept` on the decoded partial success. */
  function Classify(r: Result<PartialSuccess>): Acceptance {
    match r
    case Truncated => Acceptance(0, Some(Malformed))
    case Ok(ps) =>
      if ps.rejected > 0 then Acceptance(ps.rejected, Some(Rejected(ps.rejected, ps.message)))
      else if ps.message != [] then Acceptance(0, Some(Warning(ps.message)))
      else Acceptance(0, None)
  }

  /** `resolveAccept`. */
  method ResolveAccept(body: bytes) returns (a: Acceptance)
    ensures var inner := LastOr(Payloads(Scan(body).fields, 1), []);
      if Scan(body).complete && Scan(inner).complete then
        a == Classify(Ok(PartialSuccess(AsInt64(LastOr(Varints(Scan(inner).fields, 1), 0)),
                                        LastOr(Payloads(Scan(inner).fields, 2), []))))
      else a == Classify(Truncated)
  {
    hide Scan, Payloads, Varints, Classify;
    var ps := DecodePartialSuccess(body);
    a := Classify(ps);
  }

  /** A clean accept is silent; a malformed body, or a message with nothing rejected, is only reported. */
  lemma OnlyRejectionsCount(r: Result<PartialSuccess>)
    ensures Classify(r).rejected > 0 <==> r.Ok? && r.value.rejected > 0
    ensures r.Ok? && r.value.rejected > 0 ==>
      Classify(r) == Acceptance(r.value.rejected, Some(Rejected(r.value.rejected, r.value.message)))
    ensures r.Truncated? ==> Classify(r).event == Some(Malformed)
    ensures r.Ok? && r.value.rejected <= 0 ==>
      Classify(r).event == if r.value.message == [] then None else Some(Warning(r.value.message))
  {
  }

  /**
    From the server to the counter: a response whose partial success says `n` rejected, with a message,
    counts `n` records, or none if `n` read as a signed number is not positive.
  */
  lemma ServerCount(n: u64, message: bytes)
    requires |EncodeFields([VarintF(1, n), LenF(2, message)])| < U64_LIMIT && |message| < U64_LIMIT
    ensures
      var inner := EncodeFields([VarintF(1, n), LenF(2, message)]);
      var body := EncodeFields([LenF(1, inner)]);
      && Scan(body).complete && LastOr(Payloads(Scan(body).fields, 1), []) == inner && Scan(inner).complete
      && LastOr(Varints(Scan(inner).fields, 1), 0) == n && LastOr(Payloads(Scan(inner).fields, 2), []) == message
      && Classify(Ok(PartialSuccess(AsInt64(n), message))).rejected
         == if n < 0x8000_0000_0000_0000 then n else 0
  {
    hide Scan, EncodeFields;
    var fs := [VarintF(1, n), LenF(2, message)];
    PartialSuccessRoundTrip(fs);
    assert fs[1..] == [LenF(2, message)] && fs[1..][1..] == [];
    assert Varints(fs, 1) == [n] + Varints(fs[1..], 1);
    assert Varints(fs[1..], 1) == [] + Varints([], 1);
    assert Payloads(fs, 2) == [] + Payloads(fs[1..], 2);
    assert Payloads(fs[1..], 2) == [message] + Payloads([], 2);
  }
}
