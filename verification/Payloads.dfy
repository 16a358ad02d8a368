/**
 The two records that the off-chain worker and the node's executor leave for
 each other in off-chain storage. Both live under the job id and neither
 carries a tag, so a reader can only tell them apart by decoding.
 */
module Payloads {
  import opened Bytes
  import opened Scale

  datatype JobState = Idling | Pending | Processing | Finish

  datatype Request = Request(jobId: Blob, content: Blob, abi: Blob, state: JobState)
  datatype Response = Response(jobId: Blob, result: Blob, state: JobState, address: Bytes32, exeTime: U32)

  const DEFAULT_REQUEST := Request([], [], [], Idling)

  // ---------- Job states ----------

  function StateByte(s: JobState): Byte {
    match s
    case Idling => 0
    case Pending => 1
    case Processing => 2
    case Finish => 3
  }

  function ParseState(b: Bytes): Parsed<JobState> {
    if b == [] then Failed
    else if b[0] == 0 then Parsed(Idling, b[1..])
    else if b[0] == 1 then Parsed(Pending, b[1..])
    else if b[0] == 2 then Parsed(Processing, b[1..])
    else if b[0] == 3 then Parsed(Finish, b[1..])
    else Failed
  }

  // ---------- Encoders and decoders, in field order ----------

  function EncodeRequest(r: Request): Bytes {
    EncodeVec(r.jobId) + EncodeVec(r.content) + EncodeVec(r.abi) + [StateByte(r.state)]
  }

  function ParseRequest(b: Bytes): Parsed<Request> {
    var (jobId, b1) :- ParseVec(b);
    var (content, b2) :- ParseVec(b1);
    var (abi, b3) :- ParseVec(b2);
    var (state, b4) :- ParseState(b3);
    Parsed(Request(jobId, content, abi, state), b4)
  }

  function EncodeResponse(r: Response): Bytes {
    EncodeVec(r.jobId) + EncodeVec(r.result) + [StateByte(r.state)] + r.address + EncodeU32(r.exeTime)
  }

  function ParseAddress(b: Bytes): Parsed<Bytes32> {
    if |b| < 32 then Failed else Parsed(b[..32], b[32..])
  }

  function ParseResponse(b: Bytes): Parsed<Response> {
    var (jobId, b1) :- ParseVec(b);
    var (result, b2) :- ParseVec(b1);
    var (state, b3) :- ParseState(b2);
    var (address, b4) :- ParseAddress(b3);
    var (exeTime, b5) :- ParseU32(b4);
    Parsed(Response(jobId, result, state, address, exeTime), b5)
  }

  lemma RequestRoundTrip(r: Request, rest: Bytes)
    ensures ParseRequest(EncodeRequest(r) + rest) == Parsed(r, rest)
  {
    hide EncodeVec, ParseVec, EncodeU32, ParseU32;
    var tail := [StateByte(r.state)] + rest;
    VecRoundTrip(r.abi, tail);
    VecRoundTrip(r.content, EncodeVec(r.abi) + tail);
    VecRoundTrip(r.jobId, EncodeVec(r.content) + (EncodeVec(r.abi) + tail));
    assert EncodeRequest(r) + rest == EncodeVec(r.jobId) + (EncodeVec(r.content) + (EncodeVec(r.abi) + tail));
    assert tail[1..] == rest;
  }

  lemma ReadBack(r: Request)
    ensures ParseRequest(EncodeRequest(r)) == Parsed(r, [])
  {
    hide EncodeRequest, ParseRequest;
    RequestRoundTrip(r, []);
    assert EncodeRequest(r) + [] == EncodeRequest(r);
  }

  lemma ResponseRoundTrip(r: Response, rest: Bytes)
    ensures ParseResponse(EncodeResponse(r) + rest) == Parsed(r, rest)
  {
    hide EncodeVec, ParseVec, EncodeU32, ParseU32;
    var t2 := EncodeU32(r.exeTime) + rest;
    var t1 := r.address + t2;
    var t0 := [StateByte(r.state)] + t1;
    ParseU32RoundTrip(r.exeTime, rest);
    assert t1[..32] == r.address && t1[32..] == t2 && t0[1..] == t1;
    VecRoundTrip(r.result, t0);
    VecRoundTrip(r.jobId, EncodeVec(r.result) + t0);
    assert EncodeResponse(r) + rest == EncodeVec(r.jobId) + (EncodeVec(r.result) + t0);
  }

  /** The tail of a response: its state, then the 32 bytes of the processor's key, then the time, little-endian. */
  lemma ResponseTail(r: Response)
    ensures var b, n := EncodeResponse(r), |EncodeResponse(r)|;
            && n >= 37 && b[n - 37] == StateByte(r.state)
            && b[n - 36..n - 4] == r.address && LittleEndian(b[n - 4..]) == r.exeTime
  {
    hide EncodeVec, EncodeU32, LittleEndian;
    U32Value(r.exeTime);
    var front := EncodeVec(r.jobId) + EncodeVec(r.result);
    var b := EncodeResponse(r);
    assert b == front + [StateByte(r.state)] + r.address + EncodeU32(r.exeTime);
    assert b[|b| - 4..] == EncodeU32(r.exeTime);
  }

  // ---------- Reading one record as the other ----------

  /**
   The ABI lengths whose compact form starts with a byte that names a job
   state and is followed by enough bytes for an address and a time.
   */
  predicate Ambiguous(abi: Blob) {
    (|abi| > 0 && |abi| % 64 == 0) || |abi| >= 0x4000_0000
  }

  /** A four-byte length is at least 2^30, more than a short tail can hold. */
  lemma BigPrefixTooShort(t: Bytes)
    requires 0 < |t| < 0x4000_0000 && t[0] == 3
    ensures ParseVec(t).Failed?
  {
  }

  /** The first byte of a compact length names a job state. */
  lemma PrefixNamesState(n: U32)
    ensures EncodeCompact(n)[0] <= 3 <==> n % 64 == 0 || n >= 0x4000_0000
  {
    var q, r := n / 64, n % 64;
    if 0x40 <= n < 0x4000 {
      LowByte(q, 4 * r + 1);
    } else if 0x4000 <= n < 0x4000_0000 {
      LowByte(q, 4 * r + 2);
    }
  }

  lemma LowByte(q: nat, b: Byte)
    ensures (256 * q + b) % 256 == b
  {
  }

  /**
   A finished response is never taken for a request: its state byte is read
   as the prefix of a four-byte length of at least 2^30, and 36 bytes follow.
   */
  lemma FinishedResponseIsNoRequest(r: Response)
    requires r.state == Finish
    ensures ParseRequest(EncodeResponse(r)).Failed?
  {
    hide EncodeVec, ParseVec, EncodeU32;
    var t := [3] + r.address + EncodeU32(r.exeTime);
    VecRoundTrip(r.result, t);
    VecRoundTrip(r.jobId, EncodeVec(r.result) + t);
    assert EncodeResponse(r) == EncodeVec(r.jobId) + (EncodeVec(r.result) + t);
    BigPrefixTooShort(t);
  }

  /**
   A request is taken for a response exactly when its ABI length is ambiguous,
   and what is then read as the job's result is the job's code.
   */
  lemma RequestReadAsResponse(r: Request)
    ensures ParseResponse(EncodeRequest(r)).Parsed? <==> Ambiguous(r.abi)
    ensures Ambiguous(r.abi) ==>
              var p := ParseResponse(EncodeRequest(r)).value;
              p.jobId == r.jobId && p.result == r.content
    ensures |r.abi| < 0x4000_0000 ==>
              (ParseResponse(EncodeRequest(r)).Parsed? <==> |r.abi| > 0 && |r.abi| % 64 == 0)
  {
    hide EncodeVec, ParseVec, ParseState, ParseAddress, ParseU32;
    var t := EncodeVec(r.abi) + [StateByte(r.state)];
    TailStartsAndFits(r.abi, r.state);
    VecRoundTrip(r.content, t);
    VecRoundTrip(r.jobId, EncodeVec(r.content) + t);
    assert EncodeRequest(r) == EncodeVec(r.jobId) + (EncodeVec(r.content) + t);
    TailReadAsStateAddressTime(t);
  }

  lemma TailStartsAndFits(abi: Blob, s: JobState)
    ensures var t := EncodeVec(abi) + [StateByte(s)];
            |t| > 0 && (t[0] <= 3 && |t| >= 37 <==> Ambiguous(abi))
  {
    PrefixNamesState(|abi|);
    hide EncodeCompact;
  }

  lemma TailReadAsStateAddressTime(t: Bytes)
    requires |t| > 0
    ensures (ParseState(t).Parsed?
             && ParseAddress(ParseState(t).rest).Parsed?
             && ParseU32(ParseAddress(ParseState(t).rest).rest).Parsed?) <==> t[0] <= 3 && |t| >= 37
  {
  }
}
