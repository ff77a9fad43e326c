/** The append-only, hash-chained event ledger as a file of bytes. */
module Ledger {
  import opened Basics

  newtype byte = x: int | 0 <= x < 256

  const LF: byte := 10
  const CR: byte := 13

  type Bytes = seq<byte>
  type Hash = string
  type Payload = string

  const ZERO_HASH: Hash := "0"

  datatype Basis = Basis(
    seqNo: int, eventId: Id, runId: Id, kind: string, actor: string,
    timestamp: string, payload: Payload, prevHash: Hash)

  datatype Event = Event(basis: Basis, hash: Hash)

  datatype Failure = IntegrityError | IdempotencyError | SensitiveDataError

  datatype Result<T> = Ok(value: T) | Err(error: Failure)

  /** What is not modelled further: canonical JSON both ways, SHA-256 of a record
      without its hash, and the search for credential-shaped values. */
  datatype Format = Format(
    enc: Event -> Bytes,
    dec: Bytes -> Option<Event>,
    digest: Basis -> Hash,
    clean: Payload -> bool,
    runId: Id)

  predicate IsBreak(b: byte) {
    b == LF || b == CR
  }

  ghost predicate OneLine(line: Bytes) {
    line != [] && forall i | 0 <= i < |line| :: !IsBreak(line[i])
  }

  ghost predicate EncodesAt(f: Format, e: Event) {
    f.dec(f.enc(e)) == Some(e) && OneLine(f.enc(e))
  }

  ghost predicate Faithful(f: Format) {
    && (forall e {:trigger f.enc(e)} :: EncodesAt(f, e))
    && forall a, b {:trigger f.digest(a), f.digest(b)} :: f.digest(a) == f.digest(b) ==> a == b
  }

  // ---------- lines ----------

  function BreakFrom(raw: Bytes, i: nat): (n: nat)
    requires i <= |raw|
    ensures i <= n <= |raw| && (n < |raw| ==> IsBreak(raw[n]))
    ensures forall k | i <= k < n :: !IsBreak(raw[k])
    decreases |raw| - i
  {
    if i == |raw| || IsBreak(raw[i]) then i else BreakFrom(raw, i + 1)
  }

  function FirstBreak(raw: Bytes): nat {
    BreakFrom(raw, 0)
  }

  /** bytes.splitlines: a line ends at LF, CR or CR LF. */
  function Lines(raw: Bytes): seq<Bytes> {
    if raw == [] then []
    else
      var n := FirstBreak(raw);
      if n == |raw| then [raw]
      else
        [raw[..n]] + Lines(raw[n + Width(raw, n)..])
  }

  predicate Whole(raw: Bytes) {
    raw == [] || raw[|raw| - 1] == LF
  }

  lemma FirstBreakIs(raw: Bytes, n: nat)
    requires n < |raw| && IsBreak(raw[n]) && forall i | 0 <= i < n :: !IsBreak(raw[i])
    ensures FirstBreak(raw) == n
  {
    var m := FirstBreak(raw);
    assert m < |raw| ==> IsBreak(raw[m]);
  }

  lemma OneLineLast(line: Bytes)
    requires OneLine(line)
    ensures Lines(line + [LF]) == [line]
  {
    var raw := line + [LF];
    FirstBreakIs(raw, |line|);
    assert raw[..|line|] == line && raw[|line| + 1..] == [];
  }

  /** What ends the line that stops at n. */
  function Width(raw: Bytes, n: nat): (w: nat)
    requires n < |raw|
    ensures 1 <= w <= |raw| - n
  {
    if raw[n] == CR && n + 1 < |raw| && raw[n + 1] == LF then 2 else 1
  }

  lemma LinesUnfold(raw: Bytes, n: nat)
    requires n < |raw| && FirstBreak(raw) == n
    ensures Lines(raw) == [raw[..n]] + Lines(raw[n + Width(raw, n)..])
  {
    var rest := raw[n + Width(raw, n)..];
    assert raw != [];
    calc {
      Lines(raw);
      [raw[..n]] + Lines(rest);
    }
  }

  /** Where the first line of a whole file ends does not depend on what follows. */
  lemma BreakStays(raw: Bytes, more: Bytes)
    requires Whole(raw) && raw != []
    ensures var n := FirstBreak(raw);
            && n < |raw| && FirstBreak(raw + more) == n && Width(raw + more, n) == Width(raw, n)
            && (raw + more)[..n] == raw[..n]
            && (raw + more)[n + Width(raw, n)..] == raw[n + Width(raw, n)..] + more
            && Whole(raw[n + Width(raw, n)..])
  {
    var n := FirstBreak(raw);
    assert IsBreak(raw[|raw| - 1]);
    assert raw[n] == CR ==> n + 1 < |raw|;
    FirstBreakIs(raw + more, n);
  }

  /** The first line of a whole file, and the whole file after it. */
  lemma FirstLine(raw: Bytes, more: Bytes) returns (line: Bytes, rest: Bytes)
    requires Whole(raw) && raw != []
    ensures Whole(rest) && |rest| < |raw|
    ensures Lines(raw) == [line] + Lines(rest)
    ensures Lines(raw + more) == [line] + Lines(rest + more)
  {
    var n := FirstBreak(raw);
    BreakStays(raw, more);
    line, rest := raw[..n], raw[n + Width(raw, n)..];
    LinesUnfold(raw, n);
    LinesUnfold(raw + more, n);
  }

  lemma {:induction false} LinesGrow(raw: Bytes, line: Bytes)
    requires Whole(raw) && OneLine(line)
    ensures Lines(raw + (line + [LF])) == Lines(raw) + [line]
    decreases |raw|
  {
    if raw == [] {
      OneLineLast(line);
      assert raw + (line + [LF]) == line + [LF];
    } else {
      var _, rest := FirstLine(raw, line + [LF]);
      LinesGrow(rest, line);
    }
  }

  // ---------- verified logs ----------

  /** Record i carries its number, its run, the previous hash and its own hash. */
  ghost predicate ChainedAt(f: Format, log: seq<Event>, i: nat)
    requires i < |log|
  {
    && log[i].basis.seqNo == i + 1
    && log[i].basis.runId == f.runId
    && log[i].basis.prevHash == HeadHash(log[..i])
    && log[i].hash == f.digest(log[i].basis)
    && f.clean(log[i].basis.payload)
  }

  function HeadHash(log: seq<Event>): Hash {
    if log == [] then ZERO_HASH else log[|log| - 1].hash
  }

  function EventIds(log: seq<Event>): seq<Id> {
    seq(|log|, i requires 0 <= i < |log| => log[i].basis.eventId)
  }

  ghost predicate Verified(f: Format, log: seq<Event>) {
    && (forall i | 0 <= i < |log| :: ChainedAt(f, log, i))
    && Distinct(EventIds(log))
  }

  ghost predicate DecodesTo(f: Format, raw: Bytes, log: seq<Event>) {
    && |Lines(raw)| == |log|
    && forall i | 0 <= i < |log| :: f.dec(Lines(raw)[i]) == Some(log[i])
  }

  /** The file reads as the log. */
  ghost predicate Reads(f: Format, raw: Bytes, log: seq<Event>) {
    Whole(raw) && DecodesTo(f, raw, log) && Verified(f, log)
  }

  lemma ReadsOnce(f: Format, raw: Bytes, a: seq<Event>, b: seq<Event>)
    requires Reads(f, raw, a) && Reads(f, raw, b)
    ensures a == b
  {
    forall i | 0 <= i < |a| ensures a[i] == b[i] {
      assert f.dec(Lines(raw)[i]) == Some(a[i]) && f.dec(Lines(raw)[i]) == Some(b[i]);
    }
  }

  lemma VerifiedPrefix(f: Format, log: seq<Event>, n: nat)
    requires Verified(f, log) && n <= |log|
    ensures Verified(f, log[..n])
  {
    forall i | 0 <= i < n ensures ChainedAt(f, log[..n], i) {
      assert ChainedAt(f, log, i) && log[..n][..i] == log[..i];
    }
    forall i, j | 0 <= i < j < n ensures EventIds(log[..n])[i] != EventIds(log[..n])[j] {
      assert EventIds(log)[i] != EventIds(log)[j];
    }
  }

  /** The head hash commits to the whole log. */
  lemma {:induction false} HeadHashDecides(f: Format, a: seq<Event>, b: seq<Event>)
    requires Faithful(f) && Verified(f, a) && Verified(f, b)
    requires a != [] && b != [] && HeadHash(a) == HeadHash(b)
    ensures a == b
  {
    var n := |a| - 1;
    var m := |b| - 1;
    assert ChainedAt(f, a, n) && ChainedAt(f, b, m);
    assert a[n].basis == b[m].basis;
    assert n == m;
    if n > 0 {
      VerifiedPrefix(f, a, n);
      VerifiedPrefix(f, b, n);
      HeadHashDecides(f, a[..n], b[..n]);
    }
    assert a == a[..n] + [a[n]] && b == b[..n] + [b[n]];
  }

  // ---------- one more record ----------

  function NextBasis(f: Format, log: seq<Event>, eventId: Id, kind: string, actor: string,
                     timestamp: string, payload: Payload): Basis
  {
    Basis(|log| + 1, eventId, f.runId, kind, actor, timestamp, payload, HeadHash(log))
  }

  function Seal(f: Format, b: Basis): Event {
    Event(b, f.digest(b))
  }

  function Line(f: Format, e: Event): Bytes {
    f.enc(e) + [LF]
  }

  /** The event continues the log. */
  ghost predicate Continues(f: Format, log: seq<Event>, e: Event) {
    && e.basis.seqNo == |log| + 1 && e.basis.runId == f.runId
    && e.basis.prevHash == HeadHash(log) && e.hash == f.digest(e.basis)
    && f.clean(e.basis.payload) && e.basis.eventId !in EventIds(log)
  }

  lemma ReadsMore(f: Format, raw: Bytes, log: seq<Event>, e: Event)
    requires Faithful(f) && Reads(f, raw, log) && Continues(f, log, e)
    ensures Reads(f, raw + Line(f, e), log + [e])
  {
    assert EncodesAt(f, e);
    LinesGrow(raw, f.enc(e));
    var longer := log + [e];
    forall i | 0 <= i < |longer| ensures ChainedAt(f, longer, i) {
      assert longer[..i] == log[..i];
      if i < |log| { assert ChainedAt(f, log, i); } else { assert log[..i] == log; }
    }
    assert EventIds(longer) == EventIds(log) + [e.basis.eventId];
    var lines := Lines(raw);
    forall i | 0 <= i < |longer| ensures f.dec(Lines(raw + Line(f, e))[i]) == Some(longer[i]) {
      if i < |log| { assert f.dec(lines[i]) == Some(log[i]); }
    }
  }

  // ---------- a write cut short ----------

  /** Where the last complete line ends. */
  function Boundary(raw: Bytes): (n: nat)
    ensures n <= |raw| && Whole(raw[..n])
    ensures forall i | n <= i < |raw| :: raw[i] != LF
  {
    if raw == [] then 0
    else if raw[|raw| - 1] == LF then |raw|
    else
      var n := Boundary(raw[..|raw| - 1]);
      assert raw[..|raw| - 1][..n] == raw[..n];
      n
  }

  lemma BoundaryIs(raw: Bytes, n: nat)
    requires n <= |raw| && Whole(raw[..n]) && forall i | n <= i < |raw| :: raw[i] != LF
    ensures Boundary(raw) == n
  {
    var b := Boundary(raw);
    assert n > 0 ==> raw[..n][n - 1] == raw[n - 1];
    assert b > 0 ==> raw[..b][b - 1] == raw[b - 1];
  }

  /** A crash after k bytes of a record: either nothing or everything was written
      and the file reads at once, or the tail is partial and cutting it off gives
      back exactly the old file. Even a record missing only its newline is cut. */
  lemma CrashIsAtomic(f: Format, raw: Bytes, log: seq<Event>, e: Event, k: nat)
    requires Faithful(f) && Reads(f, raw, log) && Continues(f, log, e) && k <= |Line(f, e)|
    ensures var after := raw + Line(f, e)[..k];
            && (Whole(after) <==> k == 0 || k == |Line(f, e)|)
            && (k == 0 ==> Reads(f, after, log))
            && (k == |Line(f, e)| ==> Reads(f, after, log + [e]))
            && (0 < k < |Line(f, e)| ==> after[..Boundary(after)] == raw && after[Boundary(after)..] == Line(f, e)[..k])
  {
    var after := raw + Line(f, e)[..k];
    assert EncodesAt(f, e);
    if k == |Line(f, e)| {
      assert Line(f, e)[..k] == Line(f, e);
      ReadsMore(f, raw, log, e);
    } else if k == 0 {
      assert after == raw;
    } else {
      forall i | |raw| <= i < |after| ensures after[i] != LF {
        assert after[i] == f.enc(e)[i - |raw|];
      }
      assert after[..|raw|] == raw;
      BoundaryIs(after, |raw|);
    }
  }

  // ---------- the ledger ----------

  class EventLedger {
    const format: Format
    var file: Bytes

    constructor (format: Format, file: Bytes)
      ensures this.format == format && this.file == file
    {
      this.format, this.file := format, file;
    }

    method ReadUnlocked() returns (r: Result<seq<Event>>)
      ensures r.Ok? ==> Reads(format, file, r.value)
      ensures r.Err? ==> forall log :: !Reads(format, file, log)
    {
      if !Whole(file) { return Err(IntegrityError); }
      var events: seq<Event> := [];
      var previous := ZERO_HASH;
      var lines := Lines(file);
      for i := 0 to |lines|
        invariant |events| == i && previous == HeadHash(events)
        invariant forall k | 0 <= k < i :: format.dec(lines[k]) == Some(events[k])
        invariant forall k | 0 <= k < i :: ChainedAt(format, events, k)
      {
        var decoded := format.dec(lines[i]);
        if decoded.None? { return Err(IntegrityError); }
        var e := decoded.value;
        forall log | DecodesTo(format, file, log) ensures log[..i] == events && log[i] == e {
          forall k | 0 <= k < i ensures log[k] == events[k] {
            assert format.dec(lines[k]) == Some(log[k]);
          }
        }
        if e.basis.seqNo != i + 1 || e.basis.runId != format.runId || e.basis.prevHash != previous
           || e.hash != format.digest(e.basis)
        {
          NotChained(format, file, i, events, e);
          return Err(IntegrityError);
        }
        if !format.clean(e.basis.payload) {
          NotChained(format, file, i, events, e);
          return Err(SensitiveDataError);
        }
        ChainGrows(format, events, e);
        previous := e.hash;
        events := events + [e];
      }
      forall log | DecodesTo(format, file, log) ensures log == events {
        forall k | 0 <= k < |events| ensures log[k] == events[k] {
          assert format.dec(lines[k]) == Some(log[k]);
        }
      }
      var ids := EventIds(events);
      if exists i, j | 0 <= i < |ids| && i < j < |ids| :: ids[i] == ids[j] { return Err(IntegrityError); }
      r := Ok(events);
    }

    /** Append an event once: the same id with the same content returns the event
        already there, with other content it is refused. */
    method Append(eventId: Id, kind: string, actor: string, payload: Payload, timestamp: string)
      returns (r: Result<Event>)
      requires Faithful(format)
      modifies `file
      ensures !format.clean(payload) ==> r == Err(SensitiveDataError) && file == old(file)
      ensures (forall log :: !Reads(format, old(file), log)) ==> r.Err? && file == old(file)
      ensures forall log | format.clean(payload) && Reads(format, old(file), log) ::
                Appended(format, log, old(file), eventId, kind, actor, payload, timestamp, file, r)
    {
      if !format.clean(payload) { return Err(SensitiveDataError); }
      var read := ReadUnlocked();
      if read.Err? { return Err(read.error); }
      var events := read.value;
      forall log | Reads(format, file, log) ensures log == events { ReadsOnce(format, file, log, events); }
      for i := 0 to |events|
        invariant file == old(file)
        invariant forall k | 0 <= k < i :: events[k].basis.eventId != eventId
      {
        if events[i].basis.eventId == eventId {
          OnlyOne(format, events, i);
          if SameContent(events[i], kind, actor, payload) { return Ok(events[i]); }
          return Err(IdempotencyError);
        }
      }
      var e := Seal(format, NextBasis(format, events, eventId, kind, actor, timestamp, payload));
      assert eventId !in EventIds(events);
      ReadsMore(format, file, events, e);
      file := file + Line(format, e);
      r := Ok(e);
    }

    /** Move a partial final record out of the file. */
    method QuarantinePartialTail() returns (r: Result<Bytes>)
      modifies `file
      ensures Whole(old(file)) ==> r == Err(IntegrityError) && file == old(file)
      ensures !Whole(old(file)) ==> file == old(file)[..Boundary(old(file))] && Whole(file)
      ensures !Whole(old(file)) ==> (r.Ok? <==> exists log :: Reads(format, file, log))
      ensures r.Ok? ==> file + r.value == old(file)
    {
      if Whole(file) { return Err(IntegrityError); }
      var boundary := Boundary(file);
      var tail := file[boundary..];
      file := file[..boundary];
      var read := ReadUnlocked();
      r := if read.Ok? then Ok(tail) else Err(read.error);
    }
  }

  predicate SameContent(e: Event, kind: string, actor: string, payload: Payload) {
    e.basis.kind == kind && e.basis.actor == actor && e.basis.payload == payload
  }

  /** What one append does to a file that reads as the log. */
  ghost predicate Appended(f: Format, log: seq<Event>, before: Bytes, eventId: Id, kind: string, actor: string,
                           payload: Payload, timestamp: string, after: Bytes, r: Result<Event>)
  {
    if eventId in EventIds(log) then
      && after == before
      && (r.Ok? ==> r.value in log && r.value.basis.eventId == eventId && SameContent(r.value, kind, actor, payload))
      && (r.Err? ==> r.error == IdempotencyError && forall i | 0 <= i < |log| && log[i].basis.eventId == eventId ::
                       !SameContent(log[i], kind, actor, payload))
    else
      && r.Ok? && Continues(f, log, r.value) && after == before + Line(f, r.value)
      && r.value.basis.eventId == eventId && SameContent(r.value, kind, actor, payload)
      && r.value.basis.timestamp == timestamp
      && Reads(f, after, log + [r.value])
  }

  lemma NotChained(f: Format, raw: Bytes, i: nat, events: seq<Event>, e: Event)
    requires forall log | DecodesTo(f, raw, log) :: i < |log| && log[..i] == events && log[i] == e
    requires !(e.basis.seqNo == i + 1 && e.basis.runId == f.runId && e.basis.prevHash == HeadHash(events)
               && e.hash == f.digest(e.basis) && f.clean(e.basis.payload))
    ensures forall log :: !Reads(f, raw, log)
  {
    forall log ensures !Reads(f, raw, log) {
      if DecodesTo(f, raw, log) { assert !ChainedAt(f, log, i); }
    }
  }

  lemma ChainGrows(f: Format, events: seq<Event>, e: Event)
    requires forall k | 0 <= k < |events| :: ChainedAt(f, events, k)
    requires e.basis.seqNo == |events| + 1 && e.basis.runId == f.runId && e.basis.prevHash == HeadHash(events)
    requires e.hash == f.digest(e.basis) && f.clean(e.basis.payload)
    ensures forall k | 0 <= k < |events| + 1 :: ChainedAt(f, events + [e], k)
  {
    var longer := events + [e];
    forall k | 0 <= k < |longer| ensures ChainedAt(f, longer, k) {
      assert longer[..k] == events[..k];
      if k < |events| { assert ChainedAt(f, events, k); } else { assert events[..k] == events; }
    }
  }

  lemma OnlyOne(f: Format, log: seq<Event>, i: nat)
    requires Verified(f, log) && i < |log|
    ensures log[i].basis.eventId in EventIds(log)
    ensures forall j | 0 <= j < |log| && log[j].basis.eventId == log[i].basis.eventId :: j == i
  {
    assert EventIds(log)[i] == log[i].basis.eventId;
    forall j | 0 <= j < |log| && log[j].basis.eventId == log[i].basis.eventId ensures j == i {
      assert EventIds(log)[j] == EventIds(log)[i];
    }
  }
}
