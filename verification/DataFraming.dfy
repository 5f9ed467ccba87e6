/** Framing of the message body: the canonical form a payload must have, dot-stuffing on
    the way out, and the receiver's rule of section 4.5.2 of RFC 5321. */
module DataFraming {
  import opened Options

  newtype Byte = x: int | 0 <= x < 256

  const CR: Byte := 13
  const LF: Byte := 10
  const DOT: Byte := 46
  const END_OF_DATA: seq<Byte> := [DOT, CR, LF]

  /** One call of a reader: some bytes, the last bytes, or bytes and a failure. */
  datatype Read = More(bytes: seq<Byte>) | Last(bytes: seq<Byte>) | Broken(bytes: seq<Byte>)

  /** The bytes delivered before the source ended or broke. */
  function Delivered(input: seq<Read>): seq<Byte> {
    if input == [] then []
    else if input[0].More? then input[0].bytes + Delivered(input[1..])
    else input[0].bytes
  }

  /** The source reached its end. */
  predicate Ended(input: seq<Read>) {
    input == [] || input[0].Last? || (input[0].More? && Ended(input[1..]))
  }

  /** No read before the end came back empty-handed. */
  predicate Progresses(input: seq<Read>) {
    input == [] || !input[0].More? || (input[0].bytes != [] && Progresses(input[1..]))
  }

  // ---- Canonical payloads ----

  /** At position i: an LF follows a CR, and a CR that is not last is followed by an LF. */
  ghost predicate BoundaryAt(p: seq<Byte>, i: nat)
    requires i < |p|
  {
    && (p[i] == LF ==> i > 0 && p[i - 1] == CR)
    && (p[i] == CR && i + 1 < |p| ==> p[i + 1] == LF)
  }

  ghost predicate LinesOk(p: seq<Byte>) {
    forall i | 0 <= i < |p| :: BoundaryAt(p, i)
  }

  ghost predicate Canonical(p: seq<Byte>) {
    LinesOk(p) && p != [] && p[|p| - 1] == LF
  }

  predicate EndsWith(p: seq<Byte>, b: Byte) { p != [] && p[|p| - 1] == b }

  /** What one more byte does to the line boundaries. */
  lemma LinesOkStep(p: seq<Byte>, b: Byte)
    ensures LinesOk(p + [b]) <==> LinesOk(p) && !(EndsWith(p, CR) && b != LF) && !(b == LF && !EndsWith(p, CR))
  {
    var q := p + [b];
    var n := |p|;
    forall i | 0 <= i < n - 1
      ensures BoundaryAt(q, i) <==> BoundaryAt(p, i)
    {
      assert q[i] == p[i] && q[i + 1] == p[i + 1] && (i > 0 ==> q[i - 1] == p[i - 1]);
    }
    assert q[n] == b;
    if n > 0 {
      assert q[n - 1] == p[n - 1] && (n > 1 ==> q[n - 2] == p[n - 2]);
      assert BoundaryAt(q, n - 1) <==> BoundaryAt(p, n - 1) && !(p[n - 1] == CR && b != LF);
    }
    if LinesOk(q) {
      assert BoundaryAt(q, n);
      forall i | 0 <= i < n ensures BoundaryAt(p, i) { assert BoundaryAt(q, i); }
    }
  }

  lemma {:induction false} DeliveredSplits(input: seq<Read>, k: nat)
    requires k <= |input| && forall i :: 0 <= i < k ==> input[i].More?
    ensures Delivered(input) == Delivered(input[..k]) + Delivered(input[k..])
    ensures Ended(input) <==> Ended(input[k..])
  {
    if k > 0 {
      DeliveredSplits(input[1..], k - 1);
      assert input[..k][1..] == input[1..][..k - 1] && input[1..][k - 1..] == input[k..];
    } else {
      assert input[..0] == [] && input[0..] == input;
    }
  }

  lemma DeliveredNext(input: seq<Read>, k: nat)
    requires k < |input| && forall i :: 0 <= i < k ==> input[i].More?
    ensures Delivered(input[..k + 1]) == Delivered(input[..k]) + input[k].bytes
  {
    DeliveredSplits(input[..k + 1], k);
    assert input[..k + 1][..k] == input[..k] && input[..k + 1][k..] == [input[k]];
    assert Delivered([input[k]]) == input[k].bytes;
  }

  lemma {:induction false} ProgressSplits(input: seq<Read>, k: nat)
    requires k <= |input| && forall i :: 0 <= i < k ==> input[i].More? && input[i].bytes != []
    ensures Progresses(input) <==> Progresses(input[k..])
  {
    if k > 0 {
      ProgressSplits(input[1..], k - 1);
      assert input[1..][k - 1..] == input[k..];
    } else {
      assert input[0..] == input;
    }
  }

  /** Reading one step further into a source. */
  lemma ReadSplits(input: seq<Read>, k: nat)
    requires k < |input| && forall i | 0 <= i < k :: input[i].More?
    ensures Delivered(input[..k + 1]) == Delivered(input[..k]) + input[k].bytes
    ensures |Delivered(input[..k + 1])| <= |Delivered(input)| && Delivered(input)[..|Delivered(input[..k + 1])|] == Delivered(input[..k + 1])
    ensures Ended(input) <==> Ended(input[k..])
    ensures !input[k].More? ==> Delivered(input) == Delivered(input[..k + 1])
  {
    DeliveredSplits(input, k);
    DeliveredNext(input, k);
  }

  /** A source whose reads ran out has ended. */
  lemma SourceEnds(input: seq<Read>)
    requires forall i | 0 <= i < |input| :: input[i].More?
    ensures Ended(input) && Delivered(input[..|input|]) == Delivered(input)
  {
    DeliveredSplits(input, |input|);
    assert input[..|input|] == input && input[|input|..] == [];
  }

  // ---- The outbound check ----

  /** The outbound loop's variables. */
  datatype Outbound = Outbound(previousCR: bool, lastLF: bool, any: bool)

  /** The outbound loop over a prefix; None once it has refused. */
  function ScanOut(p: seq<Byte>): Option<Outbound> {
    if p == [] then Some(Outbound(false, false, false))
    else
      var b := p[|p| - 1];
      match ScanOut(p[..|p| - 1])
      case None => None
      case Some(v) =>
        if (v.previousCR && b != LF) || (b == LF && !v.previousCR) then None else Some(Outbound(b == CR, b == LF, true))
  }

  predicate AcceptsOut(p: seq<Byte>) { ScanOut(p).Some? && ScanOut(p).value.any && ScanOut(p).value.lastLF }

  lemma {:induction false} OutboundIsCanonical(p: seq<Byte>)
    ensures ScanOut(p).Some? <==> LinesOk(p)
    ensures ScanOut(p).Some? ==> ScanOut(p).value == Outbound(EndsWith(p, CR), EndsWith(p, LF), p != [])
    ensures AcceptsOut(p) <==> Canonical(p)
  {
    if p != [] {
      var init := p[..|p| - 1];
      OutboundIsCanonical(init);
      LinesOkStep(init, p[|p| - 1]);
      assert p == init + [p[|p| - 1]];
    }
  }

  lemma {:induction false} OutRefusesOn(p: seq<Byte>, n: nat)
    requires n <= |p| && ScanOut(p[..n]).None?
    ensures ScanOut(p).None?
    decreases |p| - n
  {
    if n < |p| {
      assert p[..n + 1][..n] == p[..n];
      OutRefusesOn(p, n + 1);
    } else {
      assert p[..n] == p;
    }
  }

  /** The bytes of one read through the outbound loop. */
  method ScanOutbound(bytes: seq<Byte>, v: Outbound, ghost done: seq<Byte>) returns (r: Option<Outbound>)
    requires ScanOut(done) == Some(v)
    ensures r == ScanOut(done + bytes)
  {
    var previousCR, lastLF, any := v.previousCR, v.lastLF, v.any;
    var i := 0;
    assert done + bytes[..0] == done;
    while i < |bytes|
      invariant 0 <= i <= |bytes| && ScanOut(done + bytes[..i]) == Some(Outbound(previousCR, lastLF, any))
    {
      var b := bytes[i];
      assert (done + bytes[..i + 1])[..|done| + i] == done + bytes[..i];
      if (previousCR && b != LF) || (b == LF && !previousCR) {
        assert (done + bytes)[..|done| + i + 1] == done + bytes[..i + 1];
        OutRefusesOn(done + bytes, |done| + i + 1);
        return None;
      }
      previousCR, lastLF, any := b == CR, b == LF, true;
      i := i + 1;
    }
    assert bytes[..|bytes|] == bytes;
    r := Some(Outbound(previousCR, lastLF, any));
  }

  /** The check of the SMTP client before it sends. */
  method ValidateCanonical(input: seq<Read>) returns (ok: bool)
    ensures ok <==> Ended(input) && Progresses(input) && Canonical(Delivered(input))
  {
    var v := Outbound(false, false, false);
    ghost var done := [];
    var k := 0;
    while k < |input|
      invariant 0 <= k <= |input| && forall i | 0 <= i < k :: input[i].More? && input[i].bytes != []
      invariant done == Delivered(input[..k]) && ScanOut(done) == Some(v)
    {
      ReadSplits(input, k);
      ProgressSplits(input, k);
      var step := input[k];
      var next := ScanOutbound(step.bytes, v, done);
      ghost var now := done + step.bytes;
      if next.None? {
        OutRefusesOn(Delivered(input), |now|);
        OutboundIsCanonical(Delivered(input));
        return false;
      }
      v, done := next.value, now;
      if step.Last? {
        OutboundIsCanonical(done);
        return v.any && v.lastLF;
      }
      if step.Broken? || step.bytes == [] { return false; }
      k := k + 1;
    }
    SourceEnds(input);
    ProgressSplits(input, |input|);
    OutboundIsCanonical(done);
    ok := v.any && v.lastLF;
  }

  // ---- The HTTP intake ----

  /** The intake loop's variables. */
  datatype Intake = Intake(previousCR: bool, last: Byte)

  /** The intake loop over a prefix; None once it has refused. */
  function ScanIn(p: seq<Byte>): Option<Intake> {
    if p == [] then Some(Intake(false, 0))
    else
      var b := p[|p| - 1];
      match ScanIn(p[..|p| - 1])
      case None => None
      case Some(v) =>
        if (v.previousCR && b != LF) || (b == LF && !v.previousCR) then None else Some(Intake(b == CR, b))
  }

  predicate AcceptsIn(p: seq<Byte>) { ScanIn(p).Some? && !(ScanIn(p).value.previousCR || ScanIn(p).value.last != LF) }

  lemma {:induction false} IntakeIsCanonical(p: seq<Byte>)
    ensures ScanIn(p).Some? <==> LinesOk(p)
    ensures ScanIn(p).Some? ==> ScanIn(p).value == Intake(EndsWith(p, CR), if p == [] then 0 else p[|p| - 1])
    ensures AcceptsIn(p) <==> Canonical(p)
  {
    if p != [] {
      var init := p[..|p| - 1];
      IntakeIsCanonical(init);
      LinesOkStep(init, p[|p| - 1]);
      assert p == init + [p[|p| - 1]];
    }
  }

  /** Two automata with different variables and different final tests, one language. */
  lemma SameLanguage(p: seq<Byte>)
    ensures AcceptsIn(p) <==> AcceptsOut(p)
  {
    IntakeIsCanonical(p);
    OutboundIsCanonical(p);
  }

  lemma {:induction false} InRefusesOn(p: seq<Byte>, n: nat)
    requires n <= |p| && ScanIn(p[..n]).None?
    ensures ScanIn(p).None?
    decreases |p| - n
  {
    if n < |p| {
      assert p[..n + 1][..n] == p[..n];
      InRefusesOn(p, n + 1);
    } else {
      assert p[..n] == p;
    }
  }

  lemma ScanInStep(p: seq<Byte>, b: Byte)
    ensures ScanIn(p + [b]) == match ScanIn(p)
      case None => None
      case Some(v) => if (v.previousCR && b != LF) || (b == LF && !v.previousCR) then None else Some(Intake(b == CR, b))
  {
    assert (p + [b])[..|p|] == p;
  }

  lemma ReadRefuses(done: seq<Byte>, bytes: seq<Byte>, n: nat)
    requires n <= |bytes| && ScanIn(done + bytes[..n]).None?
    ensures ScanIn(done + bytes).None?
  {
    assert (done + bytes)[..|done| + n] == done + bytes[..n];
    InRefusesOn(done + bytes, |done| + n);
  }

  /** The bytes of one read through the intake loop. */
  method ScanIntake(bytes: seq<Byte>, v: Intake, ghost done: seq<Byte>) returns (r: Option<Intake>)
    requires ScanIn(done) == Some(v)
    ensures r == ScanIn(done + bytes)
  {
    var previousCR, last := v.previousCR, v.last;
    var i := 0;
    assert done + bytes[..0] == done;
    while i < |bytes|
      invariant 0 <= i <= |bytes| && ScanIn(done + bytes[..i]) == Some(Intake(previousCR, last))
    {
      var b := bytes[i];
      ScanInStep(done + bytes[..i], b);
      assert done + bytes[..i + 1] == done + bytes[..i] + [b];
      if (previousCR && b != LF) || (b == LF && !previousCR) {
        ReadRefuses(done, bytes, i + 1);
        return None;
      }
      previousCR, last := b == CR, b;
      i := i + 1;
    }
    assert bytes[..|bytes|] == bytes;
    r := Some(Intake(previousCR, last));
  }

  /** The HTTP intake: a reader that stops one byte past the limit, the size test, the line
      boundaries, and the final test on the last byte.  An empty read is simply repeated. */
  method AcceptUpload(input: seq<Read>, maxBytes: nat) returns (ok: bool)
    ensures ok <==> Ended(input) && |Delivered(input)| <= maxBytes && Canonical(Delivered(input))
  {
    var v, size, left := Intake(false, 0), 0, maxBytes + 1;
    ghost var done := [];
    var k := 0;
    while k < |input| && left > 0
      invariant 0 <= k <= |input| && forall i | 0 <= i < k :: input[i].More?
      invariant done == Delivered(input[..k]) && ScanIn(done) == Some(v)
      invariant size == |done| <= maxBytes && left == maxBytes + 1 - size
    {
      ReadSplits(input, k);
      var step := input[k];
      var bytes := if |step.bytes| > left then step.bytes[..left] else step.bytes;
      size, left := size + |bytes|, left - |bytes|;
      if size > maxBytes { return false; }
      var next := ScanIntake(bytes, v, done);
      if next.None? {
        InRefusesOn(Delivered(input), |done + bytes|);
        IntakeIsCanonical(Delivered(input));
        return false;
      }
      v, done := next.value, done + bytes;
      if step.Broken? { return false; }
      if step.Last? {
        IntakeIsCanonical(done);
        return !(v.previousCR || v.last != LF);
      }
      k := k + 1;
    }
    SourceEnds(input);
    IntakeIsCanonical(done);
    ok := !(v.previousCR || v.last != LF);
  }

  // ---- Dot-stuffing ----

  /** Double every dot that starts a line. */
  function Stuff(p: seq<Byte>, lineStart: bool): seq<Byte> {
    if p == [] then []
    else (if lineStart && p[0] == DOT then [DOT, DOT] else [p[0]]) + Stuff(p[1..], p[0] == LF)
  }

  predicate AtLineStart(p: seq<Byte>, lineStart: bool) {
    if p == [] then lineStart else p[|p| - 1] == LF
  }

  lemma {:induction false} StuffSplits(a: seq<Byte>, b: seq<Byte>, lineStart: bool)
    ensures Stuff(a + b, lineStart) == Stuff(a, lineStart) + Stuff(b, AtLineStart(a, lineStart))
  {
    if a == [] {
      assert a + b == b;
    } else {
      assert (a + b)[1..] == a[1..] + b;
      StuffSplits(a[1..], b, a[0] == LF);
      assert AtLineStart(a, lineStart) == AtLineStart(a[1..], a[0] == LF);
    }
  }

  lemma StuffByte(p: seq<Byte>, b: Byte)
    ensures Stuff(p + [b], true) == Stuff(p, true) + (if AtLineStart(p, true) && b == DOT then [DOT, DOT] else [b])
  {
    StuffSplits(p, [b], true);
    assert [b][1..] == [];
    assert Stuff([b], AtLineStart(p, true)) == (if AtLineStart(p, true) && b == DOT then [DOT, DOT] else [b]) + Stuff([], b == LF);
  }

  /** One write: a writer with room for only so many bytes takes what fits and fails. */
  method Write(wire: seq<Byte>, bytes: seq<Byte>, room: Option<nat>) returns (sent: seq<Byte>, ok: bool)
    requires room.Some? ==> |wire| <= room.value
    ensures ok <==> room.None? || |wire| + |bytes| <= room.value
    ensures sent == if ok then wire + bytes else (wire + bytes)[..room.value]
  {
    ok := room.None? || |wire| + |bytes| <= room.value;
    sent := if ok then wire + bytes else (wire + bytes)[..room.value];
  }

  /** What a failing writer leaves: the first `room` bytes of what was to be written. */
  ghost predicate Cut(wire: seq<Byte>, room: Option<nat>, whole: seq<Byte>) {
    room.Some? && room.value < |whole| && wire == whole[..room.value]
  }

  lemma CutLonger(wire: seq<Byte>, room: Option<nat>, part: seq<Byte>, whole: seq<Byte>)
    requires Cut(wire, room, part) && part <= whole
    ensures Cut(wire, room, whole)
  {
  }

  lemma StuffPrefix(p: seq<Byte>, n: nat)
    requires n <= |p|
    ensures Stuff(p[..n], true) <= Stuff(p, true)
  {
    assert p == p[..n] + p[n..];
    StuffSplits(p[..n], p[n..], true);
  }

  lemma NextByte(done: seq<Byte>, buf: seq<Byte>, i: nat)
    requires i < |buf|
    ensures var p := done + buf[..i];
      Stuff(done + buf[..i + 1], true) == Stuff(p, true) + (if AtLineStart(p, true) && buf[i] == DOT then [DOT, DOT] else [buf[i]])
    ensures AtLineStart(done + buf[..i + 1], true) == (buf[i] == LF)
  {
    StuffByte(done + buf[..i], buf[i]);
    assert done + buf[..i + 1] == done + buf[..i] + [buf[i]];
  }

  /** Flush what precedes a dot that must be doubled, then the extra dot. */
  method FlushDot(wire: seq<Byte>, pending: seq<Byte>, room: Option<nat>, ghost whole: seq<Byte>) returns (sent: seq<Byte>, ok: bool)
    requires (room.Some? ==> |wire| <= room.value) && wire + pending + [DOT] <= whole
    ensures ok ==> sent == wire + pending + [DOT] && (room.Some? ==> |sent| <= room.value)
    ensures !ok ==> Cut(sent, room, whole)
  {
    sent, ok := Write(wire, pending, room);
    if !ok {
      CutLonger(sent, room, wire + pending, whole);
      return;
    }
    sent, ok := Write(sent, [DOT], room);
    if !ok { CutLonger(sent, room, wire + pending + [DOT], whole); }
  }

  /** Write one buffer, flushing up to each dot that must be doubled. */
  method WriteChunk(buf: seq<Byte>, out: seq<Byte>, atStart: bool, room: Option<nat>, ghost done: seq<Byte>)
    returns (wire: seq<Byte>, lineStart: bool, ok: bool)
    requires out == Stuff(done, true) && atStart == AtLineStart(done, true) && (room.Some? ==> |out| <= room.value)
    ensures ok ==> wire == Stuff(done + buf, true) && lineStart == AtLineStart(done + buf, true)
    ensures ok <==> room.None? || |Stuff(done + buf, true)| <= room.value
    ensures !ok ==> Cut(wire, room, Stuff(done + buf, true))
  {
    wire, lineStart, ok := out, atStart, true;
    var start, i := 0, 0;
    assert done + buf[..0] == done && buf[0..0] == [];
    while i < |buf|
      invariant Buffered(done, buf, i, start, wire, lineStart) && ok && (room.Some? ==> |wire| <= room.value)
    {
      if lineStart && buf[i] == DOT {
        DotBuffered(done, buf, i, start, wire, lineStart);
        wire, ok := FlushDot(wire, buf[start..i], room, Stuff(done + buf, true));
        if !ok { return; }
        start := i;
      } else {
        ByteBuffered(done, buf, i, start, wire, lineStart);
      }
      lineStart := buf[i] == LF;
      i := i + 1;
    }
    assert buf[..|buf|] == buf && buf[start..|buf|] == buf[start..];
    wire, ok := Write(wire, buf[start..], room);
  }

  /** Written so far, and still in the buffer: together the stuffed bytes up to i. */
  ghost predicate Buffered(done: seq<Byte>, buf: seq<Byte>, i: nat, start: nat, wire: seq<Byte>, lineStart: bool) {
    && start <= i <= |buf|
    && wire + buf[start..i] == Stuff(done + buf[..i], true) && lineStart == AtLineStart(done + buf[..i], true)
  }

  lemma ByteBuffered(done: seq<Byte>, buf: seq<Byte>, i: nat, start: nat, wire: seq<Byte>, lineStart: bool)
    requires Buffered(done, buf, i, start, wire, lineStart) && i < |buf| && !(lineStart && buf[i] == DOT)
    ensures Buffered(done, buf, i + 1, start, wire, buf[i] == LF)
  {
    NextByte(done, buf, i);
    assert buf[start..i + 1] == buf[start..i] + [buf[i]];
  }

  lemma DotBuffered(done: seq<Byte>, buf: seq<Byte>, i: nat, start: nat, wire: seq<Byte>, lineStart: bool)
    requires Buffered(done, buf, i, start, wire, lineStart) && i < |buf| && lineStart && buf[i] == DOT
    ensures Buffered(done, buf, i + 1, i, wire + buf[start..i] + [DOT], false)
    ensures wire + buf[start..i] + [DOT] <= Stuff(done + buf, true)
  {
    NextByte(done, buf, i);
    assert buf[i..i + 1] == [DOT];
    BufferPrefix(done, buf, i + 1);
    assert wire + buf[start..i] + [DOT] <= Stuff(done + buf[..i + 1], true);
  }

  lemma BufferPrefix(done: seq<Byte>, buf: seq<Byte>, n: nat)
    requires n <= |buf|
    ensures Stuff(done + buf[..n], true) <= Stuff(done + buf, true)
  {
    assert (done + buf)[..|done| + n] == done + buf[..n];
    StuffPrefix(done + buf, |done| + n);
  }

  /** Everything a source is meant to put on the wire. */
  ghost function Frame(input: seq<Read>): seq<Byte> { Stuff(Delivered(input), true) + END_OF_DATA }

  /** Stream a source through a writer that may fail.  The bytes on the wire depend only on
      the bytes read, never on how the reads were cut; success is the whole frame, and every
      failure, of the source or of the writer, leaves a proper prefix of it. */
  method StreamData(input: seq<Read>, room: Option<nat>) returns (wire: seq<Byte>, total: nat, ok: bool)
    ensures ok <==> Ended(input) && Progresses(input) && (room.None? || |Frame(input)| <= room.value)
    ensures ok ==> wire == Frame(input) && total == |Delivered(input)|
    ensures !ok ==> wire <= Frame(input) && wire != Frame(input)
  {
    wire, total, ok := [], 0, true;
    var lineStart := true;
    ghost var done := [];
    var k := 0;
    while k < |input|
      invariant 0 <= k <= |input| && ok && forall i | 0 <= i < k :: input[i].More? && input[i].bytes != []
      invariant done == Delivered(input[..k]) && total == |done| && (room.Some? ==> |wire| <= room.value)
      invariant wire == Stuff(done, true) && lineStart == AtLineStart(done, true)
    {
      ReadSplits(input, k);
      ProgressSplits(input, k);
      var step := input[k];
      ghost var now := done + step.bytes;
      StuffPrefix(Delivered(input), |now|);
      wire, lineStart, ok := WriteChunk(step.bytes, wire, lineStart, room, done);
      if !ok { return; }
      total := total + |step.bytes|;
      done := now;
      if step.Last? {
        wire, ok := Write(wire, END_OF_DATA, room);
        return;
      }
      if step.Broken? || step.bytes == [] { return wire, total, false; }
      k := k + 1;
    }
    SourceEnds(input);
    ProgressSplits(input, |input|);
    wire, ok := Write(wire, END_OF_DATA, room);
  }

  // ---- The receiver ----

  datatype Reception = Complete(payload: seq<Byte>, rest: seq<Byte>) | Waiting

  /** Length of the first line, through its LF; zero when no line is complete. */
  function LineLength(w: seq<Byte>): (n: nat)
    ensures n <= |w|
    ensures n == 0 <==> LF !in w
    ensures n > 0 ==> w[n - 1] == LF && LF !in w[..n - 1]
  {
    if w == [] then 0
    else if w[0] == LF then 1
    else
      var n := LineLength(w[1..]);
      if n == 0 then 0
      else
        assert w[..n] == [w[0]] + w[1..][..n - 1];
        n + 1
  }

  /** Read lines until the lone dot; strip a leading dot from any other line. */
  function Receive(wire: seq<Byte>): Reception {
    var n := LineLength(wire);
    if n == 0 then Waiting
    else
      var line := wire[..n];
      if line == END_OF_DATA then Complete([], wire[n..])
      else
        var body := if line[0] == DOT then line[1..] else line;
        match Receive(wire[n..])
        case Waiting => Waiting
        case Complete(payload, rest) => Complete(body + payload, rest)
  }

  /** A byte string whose only LF is its last byte. */
  ghost predicate IsLine(line: seq<Byte>) {
    line != [] && forall i | 0 <= i < |line| :: line[i] == LF <==> i == |line| - 1
  }

  lemma {:induction false} LineLengthIs(line: seq<Byte>, more: seq<Byte>)
    requires IsLine(line)
    ensures LineLength(line + more) == |line|
  {
    assert (line + more)[0] == line[0];
    if |line| > 1 {
      assert (line + more)[1..] == line[1..] + more;
      LineLengthIs(line[1..], more);
    }
  }

  /** A line has its only LF at the end, so only its first byte can be doubled. */
  lemma {:induction false} StuffTail(t: seq<Byte>)
    requires forall i :: 0 <= i < |t| - 1 ==> t[i] != LF
    ensures Stuff(t, false) == t
  {
    if t != [] {
      if |t| > 1 { StuffTail(t[1..]); }
      assert t == [t[0]] + t[1..];
    }
  }

  lemma StuffLine(line: seq<Byte>)
    requires IsLine(line)
    ensures Stuff(line, true) == (if line[0] == DOT then [DOT] + line else line)
  {
    var tail := line[1..];
    assert line == [line[0]] + tail;
    if |line| == 1 {
      assert tail == [];
    } else {
      StuffTail(tail);
    }
  }

  /** Cut a canonical payload after its first line. */
  lemma FirstLine(p: seq<Byte>) returns (line: seq<Byte>, rest: seq<Byte>)
    requires Canonical(p)
    ensures p == line + rest && IsLine(line)
    ensures rest == [] || Canonical(rest)
    ensures Stuff(p, true) == Stuff(line, true) + Stuff(rest, true)
  {
    assert p[|p| - 1] == LF;
    var n := LineLength(p);
    line, rest := p[..n], p[n..];
    assert line[..|line| - 1] == p[..n - 1];
    assert p == line + rest;
    StuffSplits(line, rest, true);
    if rest != [] {
      assert rest[|rest| - 1] == p[|p| - 1];
      assert BoundaryAt(p, n) && p[n - 1] == LF;
      forall i | 0 <= i < |rest| ensures BoundaryAt(rest, i) { assert BoundaryAt(p, n + i); }
    }
  }

  /** The stuffed line is a whole line on the wire, is never the end-of-data line, and
      unstuffs to itself. */
  lemma StuffedLine(line: seq<Byte>)
    requires IsLine(line)
    ensures var s := Stuff(line, true); IsLine(s) && s != END_OF_DATA && (if s[0] == DOT then s[1..] else s) == line
  {
    StuffLine(line);
    assert END_OF_DATA[0] == DOT && END_OF_DATA[1] == CR;
    if line[0] == DOT { assert Stuff(line, true)[1] == DOT; }
  }

  function Prepend(line: seq<Byte>, r: Reception): Reception {
    match r
    case Waiting => Waiting
    case Complete(payload, rest) => Complete(line + payload, rest)
  }

  lemma ReceiveLine(line: seq<Byte>, tail: seq<Byte>)
    requires IsLine(line)
    ensures Receive(Stuff(line, true) + tail) == Prepend(line, Receive(tail))
  {
    StuffedLine(line);
    var s := Stuff(line, true);
    LineLengthIs(s, tail);
    assert (s + tail)[..|s|] == s && (s + tail)[|s|..] == tail;
  }

  lemma ReceiveEnd(more: seq<Byte>)
    ensures Receive(END_OF_DATA + more) == Complete([], more)
  {
    LineLengthIs(END_OF_DATA, more);
    assert (END_OF_DATA + more)[..3] == END_OF_DATA && (END_OF_DATA + more)[3..] == more;
  }

  /** The receiver recovers the exact payload and stops exactly at its end. */
  lemma {:induction false} RoundTrip(p: seq<Byte>, more: seq<Byte>)
    requires p == [] || Canonical(p)
    ensures Receive(Stuff(p, true) + END_OF_DATA + more) == Complete(p, more)
    decreases |p|
  {
    if p == [] {
      assert Stuff(p, true) + END_OF_DATA + more == END_OF_DATA + more;
      ReceiveEnd(more);
    } else {
      var line, rest := FirstLine(p);
      var tail := Stuff(rest, true) + END_OF_DATA + more;
      assert Stuff(p, true) + END_OF_DATA + more == Stuff(line, true) + tail;
      ReceiveLine(line, tail);
      RoundTrip(rest, more);
    }
  }

  lemma NoLineNoEnd(w: seq<Byte>)
    requires forall i | 0 <= i < |w| :: w[i] != LF
    ensures Receive(w) == Waiting
  {
  }

  lemma CutLine(line: seq<Byte>, n: nat)
    requires IsLine(line) && n < |line|
    ensures Receive(line[..n]) == Waiting
  {
    NoLineNoEnd(line[..n]);
  }

  /** A frame is its first line and the frame of the rest. */
  lemma FrameSplits(p: seq<Byte>, line: seq<Byte>, rest: seq<Byte>, n: nat)
    requires Stuff(p, true) == Stuff(line, true) + Stuff(rest, true) && n <= |Stuff(p, true)| + |END_OF_DATA|
    ensures var s, tail := Stuff(line, true), Stuff(rest, true) + END_OF_DATA;
      (Stuff(p, true) + END_OF_DATA)[..n] == if n < |s| then s[..n] else s + tail[..n - |s|]
  {
    var s, tail := Stuff(line, true), Stuff(rest, true) + END_OF_DATA;
    assert Stuff(p, true) + END_OF_DATA == s + tail;
  }

  /** The receiver sees the end of the message only once the whole frame has arrived. */
  lemma {:induction false} NoEarlyEnd(p: seq<Byte>, n: nat)
    requires p == [] || Canonical(p)
    requires n < |Stuff(p, true)| + |END_OF_DATA|
    ensures Receive((Stuff(p, true) + END_OF_DATA)[..n]) == Waiting
    decreases |p|
  {
    if p == [] {
      assert Stuff(p, true) + END_OF_DATA == END_OF_DATA;
      CutLine(END_OF_DATA, n);
    } else {
      var line, rest := FirstLine(p);
      FrameSplits(p, line, rest, n);
      StuffedLine(line);
      var s := Stuff(line, true);
      if n < |s| {
        CutLine(s, n);
      } else {
        NoEarlyEnd(rest, n - |s|);
        ReceiveLine(line, (Stuff(rest, true) + END_OF_DATA)[..n - |s|]);
      }
    }
  }

  /** A stream that failed after n bytes of a canonical payload had been read, wherever the
      writer or the network cut it, is never taken for a complete message. */
  lemma BrokenStreamNeverEnds(p: seq<Byte>, n: nat, wire: seq<Byte>)
    requires Canonical(p) && n <= |p|
    requires wire <= Stuff(p[..n], true) || (wire <= Stuff(p, true) + END_OF_DATA && wire != Stuff(p, true) + END_OF_DATA)
    ensures Receive(wire) == Waiting
  {
    StuffPrefix(p, n);
    var frame := Stuff(p, true) + END_OF_DATA;
    assert wire == frame[..|wire|] && |wire| < |frame|;
    NoEarlyEnd(p, |wire|);
  }
}
