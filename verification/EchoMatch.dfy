/** Matching of ICMP answers to the probes of a trace. */
module EchoMatch {
  import opened Text
  import opened Model

  type Byte = b: nat | b < 256

  const ICMP_V4: Byte := 1
  const ICMP_V6: Byte := 58
  const ECHO_V4: Byte := 8
  const ECHO_V6: Byte := 128

  // ---- sequence numbers ----

  function PerHop(probesPerHop: int): (n: int)
    ensures n >= 1 && (probesPerHop > 0 ==> n == probesPerHop)
  {
    if probesPerHop <= 0 then 1 else probesPerHop
  }

  function TraceProbeSeq(ttl: int, probe: int, probesPerHop: int): int {
    (ttl - 1) * PerHop(probesPerHop) + probe + 1
  }

  /** A probe a trace sends. */
  predicate IsProbe(ttl: int, probe: int, probesPerHop: int) { ttl >= 1 && 0 <= probe < PerHop(probesPerHop) }

  lemma SeqPositive(ttl: int, probe: int, probesPerHop: int)
    requires IsProbe(ttl, probe, probesPerHop)
    ensures TraceProbeSeq(ttl, probe, probesPerHop) >= 1
  {
    assert (ttl - 1) * PerHop(probesPerHop) >= 0;
  }

  /** A trace numbers its probes from one, one after the other. */
  lemma NumberedFromOne(ttl: int, probe: int, probesPerHop: int)
    requires IsProbe(ttl, probe, probesPerHop)
    ensures TraceProbeSeq(1, 0, probesPerHop) == 1
    ensures TraceProbeSeq(ttl, probe + 1, probesPerHop) == TraceProbeSeq(ttl, probe, probesPerHop) + 1
    ensures TraceProbeSeq(ttl + 1, 0, probesPerHop) == TraceProbeSeq(ttl, PerHop(probesPerHop) - 1, probesPerHop) + 1
  {
    var n := PerHop(probesPerHop);
    assert ttl * n == (ttl - 1) * n + n;
  }

  lemma {:induction false} ProductGap(a: int, b: int, n: int)
    requires a < b && n >= 1
    ensures a * n + n <= b * n
    decreases b - a
  {
    if a + 1 < b {
      ProductGap(a, b - 1, n);
    }
    assert (b - 1) * n + n == b * n;
  }

  /** Later probes have larger numbers. */
  lemma SeqGrows(ttl: int, probe: int, ttl': int, probe': int, probesPerHop: int)
    requires IsProbe(ttl, probe, probesPerHop) && IsProbe(ttl', probe', probesPerHop)
    requires ttl < ttl' || (ttl == ttl' && probe < probe')
    ensures 1 <= TraceProbeSeq(ttl, probe, probesPerHop) < TraceProbeSeq(ttl', probe', probesPerHop)
  {
    SeqPositive(ttl, probe, probesPerHop);
    if ttl < ttl' {
      ProductGap(ttl - 1, ttl' - 1, PerHop(probesPerHop));
    }
  }

  /** Distinct probes have distinct numbers, in the order in which they are sent. */
  lemma SeqDistinct(ttl: int, probe: int, ttl': int, probe': int, probesPerHop: int)
    requires IsProbe(ttl, probe, probesPerHop) && IsProbe(ttl', probe', probesPerHop)
    ensures TraceProbeSeq(ttl, probe, probesPerHop) == TraceProbeSeq(ttl', probe', probesPerHop) <==> ttl == ttl' && probe == probe'
  {
    if ttl < ttl' || (ttl == ttl' && probe < probe') {
      SeqGrows(ttl, probe, ttl', probe', probesPerHop);
    } else if ttl' < ttl || probe' < probe {
      SeqGrows(ttl', probe', ttl, probe, probesPerHop);
    }
  }

  // ---- packets ----

  function Uint16(hi: Byte, lo: Byte): (n: nat)
    ensures n < 0x1_0000
  {
    hi * 256 + lo
  }

  lemma LowBits(n: nat)
    ensures n / 256 % 256 * 256 + n % 256 == n % 0x1_0000
  {
    var q := n / 256;
    assert n == (q / 256 * 256 + q % 256) * 256 + n % 256;
    assert n == q / 256 * 0x1_0000 + (q % 256 * 256 + n % 256);
  }

  /** The low 16 bits of a number, high byte first. */
  function PutUint16(n: nat): (r: seq<Byte>)
    ensures |r| == 2 && Uint16(r[0], r[1]) == n % 0x1_0000
  {
    LowBits(n);
    [n / 256 % 256, n % 256]
  }

  function EchoType(version: IPVersion): Byte { if version == 4 then ECHO_V4 else ECHO_V6 }

  /** An echo request as it is sent: type, code 0, some checksum, id, sequence number, payload. */
  function EchoRequest(version: IPVersion, checksum: nat, id: nat, number: nat, payload: seq<Byte>): (r: seq<Byte>)
    ensures |r| == 8 + |payload|
  {
    [EchoType(version), 0] + PutUint16(checksum) + PutUint16(id) + PutUint16(number) + payload
  }

  /** `m` starts like an echo request with this id and sequence number. */
  predicate IsEchoRequest(m: seq<Byte>, version: IPVersion, id: int, number: int) {
    |m| >= 8 && m[0] == (if version == 4 then 8 else 128) && Uint16(m[4], m[5]) == id && Uint16(m[6], m[7]) == number
  }

  /** A header of IPv4 (section 3.1 of RFC 791: five to fifteen words, their number in the low nibble of
      the first byte) or of plain IPv6 (section 3 of RFC 8200), announcing ICMP. */
  predicate LegalHeader(h: seq<Byte>, version: IPVersion) {
    || (version == 4 && 20 <= |h| <= 60 && |h| % 4 == 0 && h[0] == 4 * 16 + |h| / 4 && h[9] == 1)
    || (version == 6 && |h| == 40 && h[0] / 16 == 6 && h[6] == 58)
  }

  function OriginalEchoMessage(data: seq<Byte>, version: IPVersion): seq<Byte> {
    if version == 4 then
      if |data| < 28 || data[0] / 16 != 4 then []
      else
        var headerLen := data[0] % 16 * 4;
        if headerLen < 20 || |data| < headerLen + 8 || data[9] != ICMP_V4 then [] else data[headerLen..]
    else if version == 6 then
      if |data| < 48 || data[0] / 16 != 6 || data[6] != ICMP_V6 then [] else data[40..]
    else []
  }

  predicate TimeExceededMatches(data: seq<Byte>, version: IPVersion, id: int, number: int) {
    var inner := OriginalEchoMessage(data, version);
    if |inner| < 8 then false
    else if version == 4 && inner[0] != ECHO_V4 then false
    else if version == 6 && inner[0] != ECHO_V6 then false
    else if version != 4 && version != 6 then false
    else Uint16(inner[4], inner[5]) == id && Uint16(inner[6], inner[7]) == number
  }

  /** Any byte string is matched iff it is a legal header followed by an echo request with the id and
      the sequence number asked for. */
  lemma MatchesExactly(data: seq<Byte>, version: IPVersion, id: int, number: int)
    ensures TimeExceededMatches(data, version, id, number)
            <==> exists n: nat :: n <= |data| && LegalHeader(data[..n], version) && IsEchoRequest(data[n..], version, id, number)
  {
    if TimeExceededMatches(data, version, id, number) {
      var n := if version == 4 then data[0] % 16 * 4 else 40;
      assert LegalHeader(data[..n], version) && IsEchoRequest(data[n..], version, id, number);
    }
    if n: nat :| n <= |data| && LegalHeader(data[..n], version) && IsEchoRequest(data[n..], version, id, number) {
      HeaderEnds(data, version, n);
      assert OriginalEchoMessage(data, version) == data[n..];
    }
  }

  lemma HeaderEnds(data: seq<Byte>, version: IPVersion, n: nat)
    requires n <= |data| && LegalHeader(data[..n], version)
    ensures version == 4 ==> data[0] / 16 == 4 && data[0] % 16 * 4 == n
    ensures version == 6 ==> n == 40
  {
    assert data[..n][0] == data[0];
  }

  /** A quoted probe is matched iff its id and sequence number, cut to 16 bits, are the ones asked for. */
  lemma QuotedProbeMatches(header: seq<Byte>, version: IPVersion, checksum: nat, sentId: nat, sent: nat,
                           payload: seq<Byte>, id: int, number: int)
    requires LegalHeader(header, version)
    ensures TimeExceededMatches(header + EchoRequest(version, checksum, sentId, sent, payload), version, id, number)
            <==> id == sentId % 0x1_0000 && number == sent % 0x1_0000
  {
    var echo := EchoRequest(version, checksum, sentId, sent, payload);
    var data := header + echo;
    assert data[..|header|] == header && data[|header|..] == echo;
    HeaderEnds(data, version, |header|);
    assert OriginalEchoMessage(data, version) == echo;
    var i, s := PutUint16(sentId), PutUint16(sent);
    assert echo[4] == i[0] && echo[5] == i[1] && echo[6] == s[0] && echo[7] == s[1];
  }

  // ---- the wait for an answer ----

  /** An ICMP message read from the socket; `family` is the protocol whose type number it carries. */
  datatype Message = EchoReply(family: IPVersion, id: int, number: int) | TimeExceeded(family: IPVersion, data: seq<Byte>) | Other

  /** Whether the message ends the wait of a probe: an IPv6 type counts in an IPv6 trace only, an IPv4
      type in any. */
  predicate Answers(m: Message, version: IPVersion, id: int, number: int) {
    match m
    case EchoReply(family, i, n) => (family == 4 || version == 6) && i == id && n == number
    case TimeExceeded(family, data) => (family == 4 || version == 6) && TimeExceededMatches(data, version, id, number)
    case Other => false
  }

  /** Reads until the first message that answers; only an echo reply means that the target was reached.
      Running out of messages stands for the deadline. */
  method Await(messages: seq<Message>, version: IPVersion, id: int, number: int) returns (at: int, reached: bool)
    ensures -1 <= at < |messages|
    ensures at >= 0 ==> Answers(messages[at], version, id, number) && reached == messages[at].EchoReply?
    ensures forall k | 0 <= k < (if at < 0 then |messages| else at) :: !Answers(messages[k], version, id, number)
  {
    for k := 0 to |messages|
      invariant forall j | 0 <= j < k :: !Answers(messages[j], version, id, number)
    {
      match messages[k]
      case EchoReply(family, i, n) =>
        if (family == 4 || version == 6) && i == id && n == number {
          return k, true;
        }
      case TimeExceeded(family, data) =>
        if (family == 4 || version == 6) && TimeExceededMatches(data, version, id, number) {
          return k, false;
        }
      case Other =>
    }
    return -1, false;
  }

  /** What routers and the target send back for a probe: its echo reply, or its quotation behind any
      legal header. */
  ghost predicate ReplyTo(m: Message, version: IPVersion, id: nat, number: nat) {
    || m == EchoReply(version, id % 0x1_0000, number % 0x1_0000)
    || (m.TimeExceeded? && m.family == version && exists header, checksum: nat, payload ::
          LegalHeader(header, version) && m.data == header + EchoRequest(version, checksum, id, number, payload))
  }

  /** A reply to one probe ends the wait of another probe iff the numbers agree modulo 2^16. */
  lemma ReplyAnswers(m: Message, version: IPVersion, id: nat, sent: nat, number: int)
    requires (version == 4 || version == 6) && id < 0x1_0000 && ReplyTo(m, version, id, sent)
    ensures Answers(m, version, id, number) <==> number == sent % 0x1_0000
  {
    if m.TimeExceeded? {
      var header, checksum: nat, payload :|
        LegalHeader(header, version) && m.data == header + EchoRequest(version, checksum, id, sent, payload);
      QuotedProbeMatches(header, version, checksum, id, sent, payload, id, number);
    }
  }

  lemma ReplyAnswersNumber(m: Message, version: IPVersion, id: nat, sent: nat, number: int)
    requires (version == 4 || version == 6) && id < 0x1_0000 && sent < 0x1_0000 && ReplyTo(m, version, id, sent)
    ensures Answers(m, version, id, number) <==> number == sent
  {
    ReplyAnswers(m, version, id, sent, number);
  }

  /** Within one trace whose numbers stay below 2^16, a reply to one probe answers exactly that probe. */
  lemma ReplyAnswersItsProbe(m: Message, version: IPVersion, id: nat, probesPerHop: int,
                             ttl: int, probe: int, ttl': int, probe': int, sent: nat)
    requires (version == 4 || version == 6) && id < 0x1_0000
    requires IsProbe(ttl, probe, probesPerHop) && IsProbe(ttl', probe', probesPerHop)
    requires sent == TraceProbeSeq(ttl, probe, probesPerHop) < 0x1_0000 && ReplyTo(m, version, id, sent)
    ensures Answers(m, version, id, TraceProbeSeq(ttl', probe', probesPerHop)) <==> ttl == ttl' && probe == probe'
  {
    SeqDistinct(ttl, probe, ttl', probe', probesPerHop);
    ReplyAnswersNumber(m, version, id, sent, TraceProbeSeq(ttl', probe', probesPerHop));
  }

  /** The bound is needed: a probe whose number does not fit in 16 bits is never answered. */
  lemma LargeNumberIsNeverAnswered(m: Message, version: IPVersion, id: nat, number: nat)
    requires (version == 4 || version == 6) && id < 0x1_0000 && number >= 0x1_0000 && ReplyTo(m, version, id, number)
    ensures !Answers(m, version, id, number)
  {
    ReplyAnswers(m, version, id, number, number);
  }
}
