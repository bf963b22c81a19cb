/** From Docker's multiplexed stream to the client's result: `DemuxDockerStream`, the
    event stream of the exec endpoint, and the SDK's fold over it. */
module ExecStream {
  import opened Domain
  import opened Streams

  // ---- Frames --------------------------------------------------------------------------

  datatype Frame = Frame(stderr: bool, data: Bytes)

  /** The size field: four bytes, big end first. */
  function Size(h: Bytes): nat
    requires |h| >= 8
  {
    (h[4] as int) * 0x100_0000 + (h[5] as int) * 0x1_0000 + (h[6] as int) * 256 + h[7] as int
  }

  ghost predicate StartsWithFrame(s: Bytes) { |s| >= 8 && |s| >= 8 + Size(s) }

  ghost function FirstFrame(s: Bytes): Frame
    requires StartsWithFrame(s)
  {
    Frame(s[0] == 2, s[8..8 + Size(s)])
  }

  /** The complete frames at the start of a byte stream. */
  ghost function Frames(s: Bytes): seq<Frame>
    decreases |s|
  {
    if StartsWithFrame(s) then [FirstFrame(s)] + Frames(s[8 + Size(s)..]) else []
  }

  /** What is left after them: nothing, or a truncated frame. */
  ghost function Leftover(s: Bytes): Bytes
    decreases |s|
  {
    if StartsWithFrame(s) then Leftover(s[8 + Size(s)..]) else s
  }

  ghost function Length(fs: seq<Frame>): nat {
    if fs == [] then 0 else 8 + |fs[0].data| + Length(fs[1..])
  }

  /** Consumed and leftover bytes make up the input. */
  lemma {:induction false} Conservation(s: Bytes)
    ensures Length(Frames(s)) + |Leftover(s)| == |s|
    ensures Leftover(s) == s[Length(Frames(s))..]
    ensures !StartsWithFrame(Leftover(s))
    decreases |s|
  {
    if StartsWithFrame(s) {
      var t := s[8 + Size(s)..];
      Conservation(t);
      assert Frames(s)[1..] == Frames(t);
    }
  }

  /** `DemuxDockerStream` with a handler that accepts `accepts` frames and then fails. The
      frames and the verdict depend on the bytes alone, not on how the reader splits them. */
  method Demux(reader: Reader, accepts: nat) returns (log: seq<Frame>, ok: bool)
    modifies reader
    ensures var s := old(reader.Rest());
            && log == Frames(s)[..Min(accepts, |Frames(s)|)]
            && (ok <==> |Frames(s)| <= accepts && Leftover(s) == [] && reader.ending.Eof?)
  {
    log := [];
    ghost var s := reader.Rest();
    ghost var all := Frames(s);
    while true
      invariant |log| <= accepts && log + Frames(reader.Rest()) == all
      invariant Leftover(reader.Rest()) == Leftover(s)
      decreases |reader.Rest()|
    {
      LogPrefix(log, Frames(reader.Rest()));
      var frame, r := ReadFrame(reader);
      if frame.None? {
        return log, r == Empty;
      }
      if |log| == accepts {
        return log, false;
      }
      log := log + [frame.value];
    }
  }

  lemma LogPrefix(log: seq<Frame>, rest: seq<Frame>)
    ensures log == (log + rest)[..|log|]
    ensures rest != [] ==> (log + [rest[0]]) + rest[1..] == log + rest
  {
  }

  /** One turn of the loop up to the handler: the header, then the payload. */
  method ReadFrame(reader: Reader) returns (f: Option<Frame>, r: ReadResult)
    modifies reader
    ensures f.Some? ==> Frames(old(reader.Rest())) == [f.value] + Frames(reader.Rest())
    ensures f.Some? ==> Leftover(old(reader.Rest())) == Leftover(reader.Rest()) && |reader.Rest()| < |old(reader.Rest())|
    ensures f.None? ==> Frames(old(reader.Rest())) == [] && Leftover(old(reader.Rest())) == old(reader.Rest())
    ensures f.None? ==> (r == Empty <==> old(reader.Rest()) == [] && reader.ending.Eof?)
  {
    var header;
    header, r := reader.ReadFull(8);
    if r != Full {
      return None, r;
    }
    var size := Size(header);
    ghost var middle := reader.Rest();
    var payload;
    payload, r := reader.ReadFull(size);
    SameSize(header, middle);
    if r != Full {
      return None, if r == Empty then Short else r; // even a missing payload is an error
    }
    FirstSplit(header, payload, reader.Rest());
    return Some(Frame(header[0] == 2, payload)), r;
  }

  lemma SameSize(header: Bytes, rest: Bytes)
    requires |header| == 8
    ensures Size(header + rest) == Size(header) && (header + rest)[0] == header[0]
  {
  }

  lemma FirstSplit(header: Bytes, payload: Bytes, rest: Bytes)
    requires |header| == 8 && Size(header) == |payload|
    ensures Frames(header + (payload + rest)) == [Frame(header[0] == 2, payload)] + Frames(rest)
    ensures Leftover(header + (payload + rest)) == Leftover(rest)
  {
    var s := header + (payload + rest);
    SameSize(header, payload + rest);
    assert s[8..8 + Size(s)] == payload && s[8 + Size(s)..] == rest;
  }

  function Min(a: nat, b: nat): nat { if a < b then a else b }

  // ---- The sending side -------------------------------------------------------------------

  const LIMIT: nat := 0x1_0000_0000

  function SizeField(n: nat): Bytes
    requires n < LIMIT
  {
    [n / 0x100_0000, n / 0x1_0000 % 256, n / 256 % 256, n % 256]
  }

  function Encode(f: Frame): Bytes
    requires |f.data| < LIMIT
  {
    [if f.stderr then 2 else 1, 0, 0, 0] + SizeField(|f.data|) + f.data
  }

  ghost predicate Sendable(fs: seq<Frame>) { forall i :: 0 <= i < |fs| ==> |fs[i].data| < LIMIT }

  ghost function EncodeAll(fs: seq<Frame>): Bytes
    requires Sendable(fs)
  {
    if fs == [] then [] else Encode(fs[0]) + EncodeAll(fs[1..])
  }

  lemma SizeRoundTrip(n: nat)
    requires n < LIMIT
    ensures var d := SizeField(n);
            (d[0] as int) * 0x100_0000 + (d[1] as int) * 0x1_0000 + (d[2] as int) * 256 + d[3] as int == n
  {
    assert n / 0x100_0000 == n / 0x1_0000 / 256 && n / 0x1_0000 == n / 256 / 256;
  }

  /** A stream that starts with an encoded frame has that frame first and the rest after it. */
  lemma EncodeHead(f: Frame, rest: Bytes)
    requires |f.data| < LIMIT
    ensures var s := Encode(f) + rest; StartsWithFrame(s) && FirstFrame(s) == f && s[8 + Size(s)..] == rest
  {
    var n, s := |f.data|, Encode(f) + rest;
    SizeRoundTrip(n);
    assert s[4..8] == SizeField(n);
    assert s[4] == s[4..8][0] && s[5] == s[4..8][1] && s[6] == s[4..8][2] && s[7] == s[4..8][3];
    assert Size(s) == n;
  }

  lemma FramesCons(s: Bytes, f: Frame, rest: Bytes)
    requires StartsWithFrame(s) && FirstFrame(s) == f && s[8 + Size(s)..] == rest
    ensures Frames(s) == [f] + Frames(rest) && Leftover(s) == Leftover(rest)
  {
  }

  lemma Regroup(a: Bytes, b: Bytes, c: Bytes)
    ensures (a + b) + c == a + (b + c)
  {
  }

  /** Demultiplexing inverts multiplexing, whatever follows. */
  lemma {:induction false} DemuxInverts(fs: seq<Frame>, tail: Bytes)
    requires Sendable(fs)
    ensures Frames(EncodeAll(fs) + tail) == fs + Frames(tail)
    ensures Leftover(EncodeAll(fs) + tail) == Leftover(tail)
    decreases |fs|
  {
    if fs == [] {
      assert EncodeAll(fs) + tail == tail;
    } else {
      var rest := EncodeAll(fs[1..]) + tail;
      DemuxInverts(fs[1..], tail);
      Regroup(Encode(fs[0]), EncodeAll(fs[1..]), tail);
      OneFrame(fs[0], rest);
      Recompose(fs, Frames(tail));
    }
  }

  lemma Recompose(fs: seq<Frame>, rest: seq<Frame>)
    requires fs != []
    ensures [fs[0]] + (fs[1..] + rest) == fs + rest
  {
  }

  lemma OneFrame(f: Frame, rest: Bytes)
    requires |f.data| < LIMIT
    ensures Frames(Encode(f) + rest) == [f] + Frames(rest) && Leftover(Encode(f) + rest) == Leftover(rest)
  {
    EncodeHead(f, rest);
    FramesCons(Encode(f) + rest, f, rest);
  }

  // ---- Events and the client ------------------------------------------------------------------

  datatype Stream = Stdout | Stderr | Exit

  datatype Event = Event(stream: Stream, data: Bytes)

  datatype ExecResult = ExecResult(stdout: Bytes, stderr: Bytes, exitCode: Bytes)

  function ToEvent(f: Frame): Event { Event(if f.stderr then Stderr else Stdout, f.data) }

  function ToEvents(fs: seq<Frame>): (es: seq<Event>)
    ensures |es| == |fs| && forall i :: 0 <= i < |fs| ==> es[i] == ToEvent(fs[i])
  {
    seq(|fs|, i requires 0 <= i < |fs| => ToEvent(fs[i]))
  }

  /** All events of an exec: the frames in order, then the exit code if there is one. */
  ghost function AllEvents(s: Bytes, exit: Option<Bytes>): seq<Event> {
    ToEvents(Frames(s)) + if exit.Some? then [Event(Exit, exit.value)] else []
  }

  /** The streaming part of the exec handler, over a connection that takes `accepts` events
      and then fails for good. The client sees a prefix of all events; the exit event, if
      delivered, is the last one and comes after everything. */
  method StreamExec(reader: Reader, accepts: nat, exit: Option<Bytes>) returns (sent: seq<Event>)
    modifies reader
    ensures var all := AllEvents(old(reader.Rest()), exit); sent == all[..Min(accepts, |all|)]
  {
    var log, _ := Demux(reader, accepts);
    sent := ToEvents(log);
    if exit.Some? && |sent| < accepts {
      sent := sent + [Event(Exit, exit.value)];
    }
  }

  /** The payloads of one stream, joined in order. */
  ghost function Joined(es: seq<Event>, stream: Stream): Bytes {
    if es == [] then [] else (if es[0].stream == stream then es[0].data else []) + Joined(es[1..], stream)
  }

  /** The last exit code seen, empty if none. */
  ghost function LastExit(es: seq<Event>): Bytes {
    if es == [] then [] else if es[|es| - 1].stream.Exit? then es[|es| - 1].data else LastExit(es[..|es| - 1])
  }

  lemma {:induction false} JoinedSnoc(es: seq<Event>, e: Event, stream: Stream)
    ensures Joined(es + [e], stream) == Joined(es, stream) + if e.stream == stream then e.data else []
    decreases |es|
  {
    if es == [] {
      assert es + [e] == [e];
      assert [e][1..] == [];
    } else {
      assert (es + [e])[1..] == es[1..] + [e];
      JoinedSnoc(es[1..], e, stream);
    }
  }

  lemma LastExitSnoc(es: seq<Event>, e: Event)
    ensures LastExit(es + [e]) == if e.stream.Exit? then e.data else LastExit(es)
  {
    assert (es + [e])[..|es|] == es;
  }

  /** The fold of the SDK's `Exec`. */
  method Collect(es: seq<Event>) returns (r: ExecResult)
    ensures r == ExecResult(Joined(es, Stdout), Joined(es, Stderr), LastExit(es))
  {
    r := ExecResult([], [], []);
    for i := 0 to |es|
      invariant r == ExecResult(Joined(es[..i], Stdout), Joined(es[..i], Stderr), LastExit(es[..i]))
    {
      assert es[..i + 1] == es[..i] + [es[i]];
      LastExitSnoc(es[..i], es[i]);
      JoinedSnoc(es[..i], es[i], Stdout);
      JoinedSnoc(es[..i], es[i], Stderr);
      match es[i].stream
      case Stdout => r := r.(stdout := r.stdout + es[i].data);
      case Stderr => r := r.(stderr := r.stderr + es[i].data);
      case Exit => r := r.(exitCode := es[i].data);
    }
    assert es[..|es|] == es;
  }

  /** What the container wrote to one stream. */
  ghost function Written(fs: seq<Frame>, stderr: bool): Bytes {
    if fs == [] then [] else (if fs[0].stderr == stderr then fs[0].data else []) + Written(fs[1..], stderr)
  }

  lemma {:induction false} JoinedIsWritten(fs: seq<Frame>)
    ensures Joined(ToEvents(fs), Stdout) == Written(fs, false)
    ensures Joined(ToEvents(fs), Stderr) == Written(fs, true)
    ensures LastExit(ToEvents(fs)) == []
    decreases |fs|
  {
    if fs != [] {
      assert ToEvents(fs)[1..] == ToEvents(fs[1..]);
      JoinedIsWritten(fs[1..]);
      NoExit(ToEvents(fs));
    }
  }

  lemma {:induction false} NoExit(es: seq<Event>)
    requires forall i :: 0 <= i < |es| ==> !es[i].stream.Exit?
    ensures LastExit(es) == []
    decreases |es|
  {
    if es != [] { NoExit(es[..|es| - 1]); }
  }

  /** End to end: encoding frames, demultiplexing them, streaming them as events and folding
      the events yields what was written, and the exit code. */
  lemma EndToEnd(fs: seq<Frame>, exit: Option<Bytes>)
    requires Sendable(fs)
    ensures var es := AllEvents(EncodeAll(fs), exit);
            && Joined(es, Stdout) == Written(fs, false)
            && Joined(es, Stderr) == Written(fs, true)
            && LastExit(es) == if exit.Some? then exit.value else []
  {
    DemuxInverts(fs, []);
    assert EncodeAll(fs) + [] == EncodeAll(fs);
    assert fs + [] == fs;
    JoinedIsWritten(fs);
    var es := ToEvents(fs);
    if exit.Some? {
      JoinedSnoc(es, Event(Exit, exit.value), Stdout);
      JoinedSnoc(es, Event(Exit, exit.value), Stderr);
    } else {
      assert es + [] == es;
    }
  }

  /** The same with the real parts: any splitting of the encoded stream, a connection that
      does not fail, and the client's loop. */
  method ExecEndToEnd(reader: Reader, ghost fs: seq<Frame>, exit: Option<Bytes>, accepts: nat) returns (r: ExecResult)
    requires Sendable(fs) && reader.Rest() == EncodeAll(fs) && accepts > |fs|
    modifies reader
    ensures r == ExecResult(Written(fs, false), Written(fs, true), if exit.Some? then exit.value else [])
  {
    EndToEnd(fs, exit);
    EventCount(fs, exit);
    var es := StreamExec(reader, accepts, exit);
    r := Collect(es);
  }

  lemma EventCount(fs: seq<Frame>, exit: Option<Bytes>)
    requires Sendable(fs)
    ensures var all := AllEvents(EncodeAll(fs), exit); |all| <= |fs| + 1 && all[..|all|] == all
  {
    DemuxInverts(fs, []);
    assert EncodeAll(fs) + [] == EncodeAll(fs);
  }
}
