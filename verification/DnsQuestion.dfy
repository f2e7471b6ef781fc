/**
 The blocked-name DNS responder: reading a question (sections 4.1.1 and 4.1.2 of RFC 1035),
 the NXDOMAIN reply to it, and the two-byte length framing of a TCP connection (section 4.2.2).
 */
module DnsQuestion {
  import opened Wrappers
  import opened Texts

  const DOT: byte := 46

  function U16(b: Bytes, at: nat): (r: nat)
    requires at + 2 <= |b|
    ensures r < 65536
  {
    b[at] as int * 256 + b[at + 1] as int
  }

  function Be16(n: nat): (r: Bytes)
    requires n < 65536
    ensures |r| == 2 && U16(r, 0) == n
  {
    [n / 256, n % 256]
  }

  // ---- Labels ----

  datatype Labels = Labels(labels: seq<Bytes>, end: nat)

  /** The labels from an offset to the end of the name, or None when the message runs out or a length is over 63. */
  function ReadLabels(msg: Bytes, off: nat): (r: Option<Labels>)
    ensures r.Some? ==> off < r.value.end <= |msg|
    decreases |msg| - off
  {
    if off >= |msg| then None
    else
      var len := msg[off];
      if len == 0 then Some(Labels([], off + 1))
      else if len > 63 || off + 1 + len > |msg| then None
      else
        var rest := ReadLabels(msg, off + 1 + len);
        if rest.None? then None
        else Some(Labels([msg[off + 1..off + 1 + len]] + rest.value.labels, rest.value.end))
  }

  predicate GoodLabels(labels: seq<Bytes>) {
    forall i :: 0 <= i < |labels| ==> 0 < |labels[i]| <= 63
  }

  predicate DotFree(labels: seq<Bytes>) {
    forall i :: 0 <= i < |labels| ==> 46 !in labels[i]
  }

  /** The encoder of section 3.1: a length byte before each label, a zero at the end. */
  function EncodeName(labels: seq<Bytes>): (r: Bytes)
    requires GoodLabels(labels)
    ensures r != []
  {
    if labels == [] then [0] else [|labels[0]|] + labels[0] + EncodeName(labels[1..])
  }

  /** The bytes of a message from off on, as long as some other bytes. */
  predicate Holds(msg: Bytes, off: nat, part: Bytes) {
    off + |part| <= |msg| && msg[off..off + |part|] == part
  }

  lemma HoldsParts(msg: Bytes, off: nat, a: Bytes, b: Bytes)
    ensures Holds(msg, off, a + b) <==> Holds(msg, off, a) && Holds(msg, off + |a|, b)
  {
    if off + |a| + |b| <= |msg| {
      assert msg[off..off + |a + b|] == msg[off..off + |a|] + msg[off + |a|..off + |a| + |b|];
      assert (a + b)[..|a|] == a && (a + b)[|a|..] == b;
    }
  }

  /** Reading is exactly the inverse of encoding: it finds labels if and only if their encoding stands there. */
  lemma {:induction false} LabelsRoundTrip(msg: Bytes, off: nat, labels: seq<Bytes>)
    requires GoodLabels(labels) && Holds(msg, off, EncodeName(labels))
    ensures ReadLabels(msg, off) == Some(Labels(labels, off + |EncodeName(labels)|))
    decreases |labels|
  {
    if labels == [] {
      assert msg[off] == msg[off..off + 1][0];
    } else {
      var l := labels[0];
      var n: byte := |l|;
      HoldsParts(msg, off, [n] + l, EncodeName(labels[1..]));
      HoldsParts(msg, off, [n], l);
      assert msg[off] == msg[off..off + 1][0];
      LabelsRoundTrip(msg, off + 1 + |l|, labels[1..]);
      assert [l] + labels[1..] == labels;
    }
  }

  lemma LabelBefore(msg: Bytes, off: nat, l: Bytes, rest: seq<Bytes>)
    requires 0 < |l| <= 63 && off < |msg| && msg[off] == |l| && Holds(msg, off + 1, l)
    requires GoodLabels(rest) && Holds(msg, off + 1 + |l|, EncodeName(rest))
    ensures GoodLabels([l] + rest) && Holds(msg, off, EncodeName([l] + rest))
    ensures |EncodeName([l] + rest)| == 1 + |l| + |EncodeName(rest)|
  {
    var n: byte := |l|;
    assert ([l] + rest)[1..] == rest;
    assert msg[off..off + 1] == [n];
    HoldsParts(msg, off, [n], l);
    HoldsParts(msg, off, [n] + l, EncodeName(rest));
  }

  lemma {:induction false} LabelsSound(msg: Bytes, off: nat)
    requires ReadLabels(msg, off).Some?
    ensures var r := ReadLabels(msg, off).value;
      GoodLabels(r.labels) && Holds(msg, off, EncodeName(r.labels)) && r.end == off + |EncodeName(r.labels)|
    decreases |msg| - off
  {
    var len := msg[off];
    assert msg[off..off + 1] == [len];
    if len != 0 {
      var l := msg[off + 1..off + 1 + len];
      LabelsSound(msg, off + 1 + len);
      LabelBefore(msg, off, l, ReadLabels(msg, off + 1 + len).value.labels);
    }
  }

  // ---- Names ----

  function Join(labels: seq<Bytes>): Bytes {
    if labels == [] then [] else if |labels| == 1 then labels[0] else labels[0] + [DOT] + Join(labels[1..])
  }

  function Split(name: Bytes): (r: seq<Bytes>)
    ensures r != []
  {
    if name == [] then [[]]
    else
      var rest := Split(name[1..]);
      if name[0] == DOT then [[]] + rest else [[name[0]] + rest[0]] + rest[1..]
  }

  lemma {:induction false} SplitLabel(l: Bytes, more: Bytes)
    requires DOT !in l
    ensures Split(l + [DOT] + more) == [l] + Split(more)
  {
    if l == [] {
      assert (l + [DOT] + more)[1..] == more;
    } else {
      SplitLabel(l[1..], more);
      assert (l + [DOT] + more)[1..] == l[1..] + [DOT] + more;
      assert [l[0]] + l[1..] == l;
      assert ([l[1..]] + Split(more))[1..] == Split(more);
    }
  }

  lemma {:induction false} SplitOne(l: Bytes)
    requires DOT !in l
    ensures Split(l) == [l]
  {
    if l != [] {
      SplitOne(l[1..]);
      assert [l[0]] + l[1..] == l;
    }
  }

  /** Dot-free labels can be had back from the joined name. */
  lemma {:induction false} SplitJoin(labels: seq<Bytes>)
    requires DotFree(labels) && labels != []
    ensures Split(Join(labels)) == labels
  {
    if |labels| == 1 {
      SplitOne(labels[0]);
    } else {
      SplitJoin(labels[1..]);
      SplitLabel(labels[0], Join(labels[1..]));
      assert [labels[0]] + labels[1..] == labels;
    }
  }

  // ---- The question ----

  datatype Query = Query(name: Bytes, qtype: nat, end: nat)

  predicate IsResponse(msg: Bytes)
    requires |msg| >= 12
  {
    msg[2] >= 128
  }

  function QueryName(msg: Bytes): (r: Option<Query>)
    ensures r.Some? ==> 12 < r.value.end <= |msg| && !IsResponse(msg)
  {
    if |msg| < 12 || IsResponse(msg) || U16(msg, 4) < 1 then None
    else
      var read := ReadLabels(msg, 12);
      if read.None? || read.value.end + 4 > |msg| then None
      else Some(Query(Join(read.value.labels), U16(msg, read.value.end), read.value.end + 4))
  }

  predicate QueryHeader(header: Bytes) {
    |header| == 12 && header[2] < 128 && U16(header, 4) >= 1
  }

  /** A question section: the name, its type and its class. */
  function Question(labels: seq<Bytes>, qtype: nat, qclass: nat): Bytes
    requires GoodLabels(labels) && qtype < 65536 && qclass < 65536
  {
    EncodeName(labels) + Be16(qtype) + Be16(qclass)
  }

  lemma HoldsU16(msg: Bytes, at: nat, n: nat)
    requires n < 65536 && Holds(msg, at, Be16(n))
    ensures U16(msg, at) == n
  {
    assert msg[at] == msg[at..at + 2][0] && msg[at + 1] == msg[at..at + 2][1];
  }

  lemma QuestionStands(header: Bytes, q: Bytes, more: Bytes)
    requires QueryHeader(header)
    ensures var msg := header + q + more; Holds(msg, 12, q) && QueryHeader(msg[..12])
  {
    var msg := header + q + more;
    assert msg[..12] == header;
    assert msg[12..12 + |q|] == q;
  }

  lemma ReadsQuestion(msg: Bytes, labels: seq<Bytes>, qtype: nat, qclass: nat)
    requires GoodLabels(labels) && qtype < 65536 && qclass < 65536
    requires |msg| >= 12 && QueryHeader(msg[..12]) && Holds(msg, 12, Question(labels, qtype, qclass))
    ensures QueryName(msg) == Some(Query(Join(labels), qtype, 12 + |Question(labels, qtype, qclass)|))
  {
    var n := EncodeName(labels);
    HoldsParts(msg, 12, n + Be16(qtype), Be16(qclass));
    HoldsParts(msg, 12, n, Be16(qtype));
    LabelsRoundTrip(msg, 12, labels);
    HoldsU16(msg, 12 + |n|, qtype);
    assert msg[2] == msg[..12][2] && U16(msg, 4) == U16(msg[..12], 4);
  }

  /** Every well-formed query is read as its own name and type, whatever follows the question. */
  lemma QueryRoundTrip(header: Bytes, labels: seq<Bytes>, qtype: nat, qclass: nat, more: Bytes)
    requires QueryHeader(header) && GoodLabels(labels) && qtype < 65536 && qclass < 65536
    ensures var q := Question(labels, qtype, qclass);
      QueryName(header + q + more) == Some(Query(Join(labels), qtype, 12 + |q|))
    ensures labels != [] && DotFree(labels) ==> Split(Join(labels)) == labels
  {
    QuestionStands(header, Question(labels, qtype, qclass), more);
    ReadsQuestion(header + Question(labels, qtype, qclass) + more, labels, qtype, qclass);
    if labels != [] && DotFree(labels) {
      SplitJoin(labels);
    }
  }

  /** Nothing else is read: a message with a question is a query header and the encoding of some labels. */
  lemma QuerySound(msg: Bytes) returns (labels: seq<Bytes>)
    requires QueryName(msg).Some?
    ensures QueryHeader(msg[..12]) && GoodLabels(labels)
    ensures var q := QueryName(msg).value;
      q.name == Join(labels) && Holds(msg, 12, EncodeName(labels)) && q.end == 12 + |EncodeName(labels)| + 4
      && q.qtype == U16(msg, q.end - 4)
  {
    labels := ReadLabels(msg, 12).value.labels;
    LabelsSound(msg, 12);
  }

  /** The loop: the labels so far and the offset; it never reads past the message. */
  method ParseQuery(msg: Bytes) returns (r: Option<Query>)
    ensures r == QueryName(msg)
  {
    if |msg| < 12 || msg[2] >= 128 || U16(msg, 4) < 1 {
      return None;
    }
    var labels: seq<Bytes> := [];
    var off := 12;
    assert ReadLabels(msg, 12).Some? ==> [] + ReadLabels(msg, 12).value.labels == ReadLabels(msg, 12).value.labels;
    while true
      invariant 12 <= off
      invariant ReadLabels(msg, 12) == Prepend(labels, ReadLabels(msg, off))
      decreases |msg| - off
    {
      if off >= |msg| {
        return None;
      }
      var len := msg[off];
      off := off + 1;
      if len == 0 {
        assert labels + [] == labels;
        break;
      }
      if len > 63 || off + len > |msg| {
        return None;
      }
      ghost var rest := ReadLabels(msg, off + len);
      if rest.Some? {
        assert labels + ([msg[off..off + len]] + rest.value.labels) == labels + [msg[off..off + len]] + rest.value.labels;
      }
      labels := labels + [msg[off..off + len]];
      off := off + len;
    }
    if off + 4 > |msg| {
      return None;
    }
    return Some(Query(Join(labels), U16(msg, off), off + 4));
  }

  ghost function Prepend(labels: seq<Bytes>, rest: Option<Labels>): Option<Labels> {
    if rest.None? then None else Some(Labels(labels + rest.value.labels, rest.value.end))
  }

  // ---- The reply ----

  /** The bits of the third header byte: opcode in 6 to 3, AA 2, TC 1, RD 0. */
  function Opcode(b: byte): nat { b / 8 % 16 }
  function RecursionDesired(b: byte): nat { b % 2 }

  /** The byte and 0x79: opcode and RD alone. */
  function OpcodeAndRd(b: byte): (r: byte)
    ensures r < 128
  {
    b / 8 % 16 * 8 + b % 2
  }

  function Nxdomain(msg: Bytes, end: nat): (r: Bytes)
    requires 12 <= end <= |msg|
    ensures |r| == end
  {
    msg[..2] + [128 + OpcodeAndRd(msg[2]), 128 + 3, 0, 1, 0, 0, 0, 0, 0, 0] + msg[12..end]
  }

  /**
   The reply to a query keeps its ID, opcode, RD bit and question bytes; is a response that is
   neither authoritative nor truncated, with code 3, one question and no records; and is itself
   never answered.
   */
  lemma ReplyIsNxdomain(msg: Bytes)
    requires QueryName(msg).Some?
    ensures var end := QueryName(msg).value.end;
      var r := Nxdomain(msg, end);
      && r[..2] == msg[..2] && r[12..] == msg[12..end]
      && Opcode(r[2]) == Opcode(msg[2]) && RecursionDesired(r[2]) == RecursionDesired(msg[2])
      && IsResponse(r) && r[2] / 2 % 4 == 0 && r[3] % 16 == 3
      && U16(r, 4) == 1 && U16(r, 6) == 0 && U16(r, 8) == 0 && U16(r, 10) == 0
      && QueryName(r) == None
  {
    var end := QueryName(msg).value.end;
    var r := Nxdomain(msg, end);
    FlagBits(msg[2]);
    assert r[2] == 128 + OpcodeAndRd(msg[2]);
  }

  lemma FlagBits(b: byte)
    ensures var r := 128 + OpcodeAndRd(b);
      Opcode(r) == Opcode(b) && RecursionDesired(r) == RecursionDesired(b) && r / 2 % 4 == 0
  {
    var o, d := b / 8 % 16, b % 2;
    assert (128 + 8 * o + d) / 8 == 16 + o;
  }

  /** The resolver that asked sees its own question answered. */
  lemma ReplyEchoesQuestion(header: Bytes, labels: seq<Bytes>, qtype: nat, qclass: nat, more: Bytes)
    requires QueryHeader(header) && GoodLabels(labels) && qtype < 65536 && qclass < 65536
    ensures var q := Question(labels, qtype, qclass);
      var msg := header + q + more;
      QueryName(msg).Some? && Nxdomain(msg, QueryName(msg).value.end)[12..] == q
  {
    QueryRoundTrip(header, labels, qtype, qclass, more);
    var q := Question(labels, qtype, qclass);
    assert (header + q + more)[12..12 + |q|] == q;
  }

  // ---- TCP ----

  /** What a connection has sent and counted, the bytes waiting, and whether it was destroyed. */
  datatype Conn = Conn(buf: Bytes, sent: Bytes, counted: seq<Bytes>, destroyed: bool)

  function Frame(msg: Bytes): Bytes
    requires |msg| < 65536
  {
    Be16(|msg|) + msg
  }

  /** The first message in the buffer is complete. */
  predicate Complete(buf: Bytes) {
    |buf| >= 2 && |buf| >= 2 + U16(buf, 0)
  }

  function First(buf: Bytes): (r: Bytes)
    requires Complete(buf)
    ensures |r| < 65536
  {
    buf[2..2 + U16(buf, 0)]
  }

  function AfterFirst(buf: Bytes): (r: Bytes)
    requires Complete(buf)
    ensures |r| < |buf|
  {
    buf[2 + U16(buf, 0)..]
  }

  function AddCounted(counted: seq<Bytes>, q: Query): seq<Bytes> {
    if q.qtype == 1 then counted + [q.name] else counted
  }

  /** Answer the first message, or destroy the connection when it is no query. */
  function AnswerFirst(c: Conn): Conn
    requires Complete(c.buf)
  {
    var msg := First(c.buf);
    var q := QueryName(msg);
    if q.None? then c.(buf := [], destroyed := true)
    else c.(buf := AfterFirst(c.buf), sent := c.sent + Frame(Nxdomain(msg, q.value.end)), counted := AddCounted(c.counted, q.value))
  }

  /** Answer every complete message in the buffer. */
  function Drain(c: Conn): Conn
    decreases |c.buf|
  {
    if c.destroyed || !Complete(c.buf) then c else Drain(AnswerFirst(c))
  }

  function Feed(c: Conn, chunk: Bytes): Conn {
    if c.destroyed then c else Drain(c.(buf := c.buf + chunk))
  }

  function FeedAll(c: Conn, chunks: seq<Bytes>): Conn
    decreases |chunks|
  {
    if chunks == [] then c else FeedAll(Feed(c, chunks[0]), chunks[1..])
  }

  function Concat(chunks: seq<Bytes>): Bytes {
    if chunks == [] then [] else chunks[0] + Concat(chunks[1..])
  }

  lemma CompleteStays(buf: Bytes, more: Bytes)
    requires Complete(buf)
    ensures Complete(buf + more) && First(buf + more) == First(buf) && AfterFirst(buf + more) == AfterFirst(buf) + more
  {
  }

  /** Draining early changes nothing. */
  lemma {:induction false} DrainThenFeed(c: Conn, more: Bytes)
    requires !c.destroyed
    ensures Feed(Drain(c), more) == Drain(c.(buf := c.buf + more))
    decreases |c.buf|
  {
    if Complete(c.buf) {
      CompleteStays(c.buf, more);
      var d := AnswerFirst(c);
      if !d.destroyed {
        DrainThenFeed(d, more);
        assert AnswerFirst(c.(buf := c.buf + more)) == d.(buf := d.buf + more);
      }
    }
  }

  /** Two chunks have the effect of their concatenation. */
  lemma FeedConcat(c: Conn, a: Bytes, b: Bytes)
    ensures Feed(Feed(c, a), b) == Feed(c, a + b)
  {
    if !c.destroyed {
      DrainThenFeed(c.(buf := c.buf + a), b);
      assert c.buf + a + b == c.buf + (a + b);
    }
  }

  /** However a stream is cut into chunks, what is sent, counted and left over is the same. */
  lemma {:induction false} ChunksDoNotMatter(c: Conn, chunks: seq<Bytes>)
    requires Drain(c) == c
    ensures FeedAll(c, chunks) == Feed(c, Concat(chunks))
    decreases |chunks|
  {
    if chunks == [] {
      assert c.buf + [] == c.buf;
    } else {
      var d := Feed(c, chunks[0]);
      Drained(c.(buf := c.buf + chunks[0]));
      ChunksDoNotMatter(d, chunks[1..]);
      FeedConcat(c, chunks[0], Concat(chunks[1..]));
    }
  }

  lemma {:induction false} Drained(c: Conn)
    ensures Drain(Drain(c)) == Drain(c)
    ensures !Drain(c).destroyed ==> |Drain(c).buf| < 2 + 65535
    decreases |c.buf|
  {
    if !c.destroyed && Complete(c.buf) {
      Drained(AnswerFirst(c));
    }
  }

  function Stream(msgs: seq<Bytes>): Bytes
    requires forall i :: 0 <= i < |msgs| ==> |msgs[i]| < 65536
  {
    if msgs == [] then [] else Frame(msgs[0]) + Stream(msgs[1..])
  }

  predicate AllQueries(msgs: seq<Bytes>) {
    forall i :: 0 <= i < |msgs| ==> |msgs[i]| < 65536 && QueryName(msgs[i]).Some?
  }

  function Replies(msgs: seq<Bytes>): (r: seq<Bytes>)
    requires AllQueries(msgs)
    ensures |r| == |msgs| && forall i :: 0 <= i < |r| ==> |r[i]| < 65536
  {
    seq(|msgs|, i requires 0 <= i < |msgs| => Nxdomain(msgs[i], QueryName(msgs[i]).value.end))
  }

  lemma FrameFirst(msg: Bytes, more: Bytes)
    requires |msg| < 65536
    ensures var b := Frame(msg) + more; Complete(b) && First(b) == msg && AfterFirst(b) == more
  {
    var b := Frame(msg) + more;
    assert b[0] == Be16(|msg|)[0] && b[1] == Be16(|msg|)[1];
  }

  function Queries(msgs: seq<Bytes>): (r: seq<Query>)
    requires AllQueries(msgs)
    ensures |r| == |msgs|
  {
    seq(|msgs|, i requires 0 <= i < |msgs| => QueryName(msgs[i]).value)
  }

  /** The names of the queries for an address, type 1 of section 3.2.2, in order. */
  function AddressNames(qs: seq<Query>): seq<Bytes> {
    if qs == [] then []
    else (if qs[0].qtype == 1 then [qs[0].name] else []) + AddressNames(qs[1..])
  }

  /** A connection with nothing waiting, once it has answered these queries. */
  function Answered(c: Conn, msgs: seq<Bytes>): Conn
    requires AllQueries(msgs)
  {
    Conn([], c.sent + Stream(Replies(msgs)), c.counted + AddressNames(Queries(msgs)), false)
  }

  lemma AnsweredOne(c: Conn, msgs: seq<Bytes>, q: Query)
    requires AllQueries(msgs) && |msgs| == 1 && QueryName(msgs[0]) == Some(q)
    ensures Answered(c, msgs) == Conn([], c.sent + Frame(Nxdomain(msgs[0], q.end)), AddCounted(c.counted, q), false)
  {
    OneReply(Replies(msgs));
    OneName(Queries(msgs));
    assert c.counted + [] == c.counted;
  }

  lemma OneReply(replies: seq<Bytes>)
    requires |replies| == 1 && |replies[0]| < 65536
    ensures Stream(replies) == Frame(replies[0])
  {
    assert replies[1..] == [];
  }

  lemma OneName(qs: seq<Query>)
    requires |qs| == 1
    ensures AddressNames(qs) == if qs[0].qtype == 1 then [qs[0].name] else []
  {
    assert qs[1..] == [];
  }

  lemma {:induction false} StreamConcat(a: seq<Bytes>, b: seq<Bytes>)
    requires forall i :: 0 <= i < |a| ==> |a[i]| < 65536
    requires forall i :: 0 <= i < |b| ==> |b[i]| < 65536
    ensures Stream(a + b) == Stream(a) + Stream(b)
    decreases |a|
  {
    if a == [] {
      assert a + b == b;
    } else {
      assert (a + b)[1..] == a[1..] + b;
      StreamConcat(a[1..], b);
    }
  }

  lemma {:induction false} NamesConcat(a: seq<Query>, b: seq<Query>)
    ensures AddressNames(a + b) == AddressNames(a) + AddressNames(b)
    decreases |a|
  {
    if a == [] {
      assert a + b == b;
    } else {
      assert (a + b)[1..] == a[1..] + b;
      NamesConcat(a[1..], b);
    }
  }

  lemma EachInTurn(a: seq<Bytes>, b: seq<Bytes>)
    requires AllQueries(a) && AllQueries(b)
    ensures AllQueries(a + b) && Replies(a + b) == Replies(a) + Replies(b) && Queries(a + b) == Queries(a) + Queries(b)
  {
  }

  lemma AnsweredInTurn(c: Conn, a: seq<Bytes>, b: seq<Bytes>)
    requires AllQueries(a) && AllQueries(b)
    ensures Answered(c, a + b) == Answered(Answered(c, a), b)
  {
    EachInTurn(a, b);
    StreamConcat(Replies(a), Replies(b));
    NamesConcat(Queries(a), Queries(b));
    Assoc(c.sent, Stream(Replies(a)), Stream(Replies(b)));
    assert c.counted + AddressNames(Queries(a)) + AddressNames(Queries(b)) == c.counted + (AddressNames(Queries(a)) + AddressNames(Queries(b)));
  }

  /** One framed query at the head of the buffer is answered before the rest is looked at. */
  lemma FirstIsAnswered(c: Conn, msgs: seq<Bytes>, rest: Bytes)
    requires AllQueries(msgs) && |msgs| == 1 && !c.destroyed && c.buf == []
    ensures Feed(c, Frame(msgs[0]) + rest) == Feed(Answered(c, msgs), rest)
  {
    var m := msgs[0];
    FrameFirst(m, rest);
    assert c.buf + (Frame(m) + rest) == Frame(m) + rest;
    AnsweredOne(c, msgs, QueryName(m).value);
    assert AnswerFirst(c.(buf := Frame(m) + rest)) == Answered(c, msgs).(buf := [] + rest);
  }

  /** A way of feeding that answers each query in turn answers a stream of them. */
  lemma {:induction false} FedInTurn(feed: (Conn, Bytes) -> Conn, c: Conn, msgs: seq<Bytes>, more: Bytes)
    requires AllQueries(msgs) && !c.destroyed && c.buf == []
    requires forall d: Conn, one: seq<Bytes>, rest: Bytes :: AllQueries(one) && |one| == 1 && !d.destroyed && d.buf == [] ==>
      feed(d, Frame(one[0]) + rest) == feed(Answered(d, one), rest)
    ensures feed(c, Stream(msgs) + more) == feed(Answered(c, msgs), more)
    decreases |msgs|
  {
    if msgs == [] {
      assert Stream(msgs) + more == more && Answered(c, msgs) == c;
    } else {
      var one, rest := msgs[..1], msgs[1..];
      Assoc(Frame(one[0]), Stream(rest), more);
      assert feed(c, Frame(one[0]) + (Stream(rest) + more)) == feed(Answered(c, one), Stream(rest) + more);
      FedInTurn(feed, Answered(c, one), rest, more);
      AnsweredInTurn(c, one, rest);
      assert one + rest == msgs;
    }
  }

  /**
   A stream of framed queries is answered by the framed replies in order; the names asked for an
   address are counted, once for each query; and nothing is left.
   */
  lemma StreamIsAnswered(c: Conn, msgs: seq<Bytes>, more: Bytes)
    requires AllQueries(msgs) && !c.destroyed && c.buf == []
    ensures Feed(c, Stream(msgs) + more) == Feed(Answered(c, msgs), more)
    ensures Feed(c, Stream(msgs)) == Conn([], c.sent + Stream(Replies(msgs)), c.counted + AddressNames(Queries(msgs)), false)
  {
    forall d: Conn, one: seq<Bytes>, rest: Bytes | AllQueries(one) && |one| == 1 && !d.destroyed && d.buf == []
      ensures Feed(d, Frame(one[0]) + rest) == Feed(Answered(d, one), rest)
    {
      FirstIsAnswered(d, one, rest);
    }
    FedInTurn(Feed, c, msgs, more);
    FedInTurn(Feed, c, msgs, []);
    assert Stream(msgs) + [] == Stream(msgs) && Answered(c, msgs).buf + [] == [];
  }

  /** The first message that is no query destroys the connection, with the queries before it answered and counted and nothing behind it. */
  lemma BadMessageEndsIt(c: Conn, msgs: seq<Bytes>, bad: Bytes, more: Bytes)
    requires AllQueries(msgs) && !c.destroyed && c.buf == [] && |bad| < 65536 && QueryName(bad).None?
    ensures Feed(c, Stream(msgs) + (Frame(bad) + more)) ==
      Conn([], c.sent + Stream(Replies(msgs)), c.counted + AddressNames(Queries(msgs)), true)
  {
    StreamIsAnswered(c, msgs, Frame(bad) + more);
    BadIsEnd(Answered(c, msgs), bad, more);
  }

  lemma BadIsEnd(c: Conn, bad: Bytes, more: Bytes)
    requires !c.destroyed && c.buf == [] && |bad| < 65536 && QueryName(bad).None?
    ensures Feed(c, Frame(bad) + more) == c.(destroyed := true)
  {
    FrameFirst(bad, more);
    var d := c.(buf := Frame(bad) + more);
    assert c.buf + (Frame(bad) + more) == d.buf;
    assert AnswerFirst(d) == c.(destroyed := true);
    assert Drain(d) == Drain(AnswerFirst(d));
  }

  lemma Assoc(a: Bytes, b: Bytes, c: Bytes)
    ensures a + b + c == a + (b + c)
  {
  }

  class TcpConnection {
    var buf: Bytes
    var sent: Bytes
    var counted: seq<Bytes>
    var destroyed: bool

    ghost function State(): Conn
      reads this
    {
      Conn(buf, sent, counted, destroyed)
    }

    constructor ()
      ensures State() == Conn([], [], [], false)
    {
      buf, sent, counted, destroyed := [], [], [], false;
    }

    /** The data handler; its check for an oversized buffer never fires, since a length has two bytes. */
    method OnData(chunk: Bytes)
      requires !destroyed
      modifies this
      ensures State() == Feed(old(State()), chunk)
    {
      buf := buf + chunk;
      while |buf| >= 2
        invariant !destroyed && Drain(State()) == Feed(old(State()), chunk)
        decreases |buf|
      {
        var len := U16(buf, 0);
        if |buf| < 2 + len {
          destroyed := |buf| > 2 + 65535;
          return;
        }
        var msg := buf[2..2 + len];
        var q := ParseQuery(msg);
        if q.None? {
          buf, destroyed := [], true;
          return;
        }
        buf := buf[2 + len..];
        counted := if q.value.qtype == 1 then counted + [q.value.name] else counted;
        sent := sent + Frame(Nxdomain(msg, q.value.end));
      }
    }
  }
}
