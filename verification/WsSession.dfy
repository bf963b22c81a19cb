/** An interactive exec session over a WebSocket: the output pump, the input pump, the ping
    and the keep-alive goroutine, the once-only `closeAll`, and the handler that waits for
    both pumps. Each blocking call or select is one step; the network, the container and
    the timers choose among the results a call may have. */
module WsSession {
  import opened Domain
  import opened Runs

  // ---- State --------------------------------------------------------------------------

  datatype Message = Output(data: Bytes) | Exit(code: int)

  /** What goes to the container: typed input, or a new size of its terminal. */
  datatype Order = Typed(data: Bytes) | Size(cols: nat, rows: nat)

  datatype Who = Out | In | Ping | Handler

  /** `sync.Once` around cancel, session.Close and conn.Close. */
  datatype Stage = ToCancel | ToCloseSession | ToCloseConn
  datatype Once = Fresh | Inside(who: Who, stage: Stage) | Finished

  /** What `closeAll` closes after cancelling. The code closes both; the alternatives are
      here to show that it has to. */
  datatype Plan = Plan(session: bool, conn: bool)

  const Both := Plan(true, true)

  datatype OutPc = Reading | Sending(chunk: Bytes, last: bool) | AskingExit | SendingExit(code: int) | OutClosing | OutDone
  datatype InPc = Receiving | Writing(data: Bytes) | Resizing(cols: nat, rows: nat) | InClosing | InDone
  datatype PingPc = PingIdle | Pinging | PingClosing | PingDone
  datatype KeepPc = KeepIdle | Updating | KeepDone
  datatype HandlerPc = Waiting | HandlerClosing | Returned

  /** `buffered` is what the session's bufio reader already holds, and `inbox` the number of
      messages the connection's own buffer holds: both can be read even after a close.
      `got` is what the output pump has read and `sent` what was written to the client;
      `heard` is what the client ordered and `fed` what reached the container of it. */
  datatype State = State(
    plan: Plan,
    out: OutPc, inp: InPc, ping: PingPc, keep: KeepPc, handler: HandlerPc,
    once: Once, cancelled: bool, sessionCloses: nat, connCloses: nat, writeBroken: bool,
    buffered: Bytes, inbox: nat, got: Bytes, sent: seq<Message>, readFailed: bool,
    heard: seq<Order>, fed: seq<Order>)

  /** Size of the connection's read buffer; a message takes at least one byte of it. */
  const BUFFER: nat := 4096

  predicate Initial(s: State) {
    && s.out == Reading && s.inp == Receiving && s.ping == PingIdle && s.keep == KeepIdle && s.handler == Waiting
    && s.once == Fresh && s.sessionCloses == 0 && s.connCloses == 0
    && s.got == [] && s.sent == [] && !s.readFailed && s.inbox <= BUFFER && s.heard == [] && s.fed == []
  }

  // ---- Steps ----------------------------------------------------------------------------

  datatype Received = Garbage | Input(data: Bytes) | Resize(cols: nat, rows: nat)

  datatype Action =
    | ReadBuffered(data: Bytes) | ReadStream(data: Bytes, last: bool) | ReadError
    | SendOutput(ok: bool) | AskExit(answer: Option<int>) | SendExit(ok: bool)
    | Receive(what: Received, inbox: nat) | ReceiveError | WriteInput(part: Bytes, ok: bool) | ResizeTty
    | PingTick | PingSent(ok: bool) | PingStop
    | KeepTick | KeepUpdated | KeepStop
    | Enter(who: Who) | CloseNext | Leave(who: Who)
    | WaitOver | RequestCancelled

  predicate AtClose(s: State, who: Who) {
    match who
    case Out => s.out.OutClosing?
    case In => s.inp.InClosing?
    case Ping => s.ping.PingClosing?
    case Handler => s.handler.HandlerClosing?
  }

  predicate Writable(s: State) { s.connCloses == 0 && !s.writeBroken }

  predicate Enabled(s: State, a: Action) {
    match a
    case ReadBuffered(data) => s.out.Reading? && s.buffered != [] && data == s.buffered
    case ReadStream(data, last) => s.out.Reading? && s.buffered == [] && s.sessionCloses == 0 && data != []
    case ReadError => s.out.Reading? && s.buffered == []
    case SendOutput(ok) => s.out.Sending? && (ok ==> Writable(s))
    case AskExit(_) => s.out.AskingExit?
    case SendExit(ok) => s.out.SendingExit? && (ok ==> Writable(s))
    case Receive(_, inbox) =>
      s.inp.Receiving? && if s.connCloses == 0 then inbox <= BUFFER else s.inbox == inbox + 1
    case ReceiveError => s.inp.Receiving?
    case WriteInput(part, ok) =>
      s.inp.Writing? && if ok then s.sessionCloses == 0 && part == s.inp.data else part <= s.inp.data
    case ResizeTty => s.inp.Resizing?
    case PingTick => s.ping.PingIdle?
    case PingSent(ok) => s.ping.Pinging? && (ok ==> s.connCloses == 0)
    case PingStop => s.ping.PingIdle? && s.cancelled
    case KeepTick => s.keep.KeepIdle?
    case KeepUpdated => s.keep.Updating?
    case KeepStop => s.keep.KeepIdle? && s.cancelled
    case Enter(who) => AtClose(s, who) && s.once == Fresh
    case CloseNext => s.once.Inside?
    case Leave(who) => AtClose(s, who) && s.once == Finished
    case WaitOver => s.handler.Waiting? && s.out.OutDone? && s.inp.InDone?
    case RequestCancelled => true
  }

  function Count(b: bool): nat { if b then 1 else 0 }

  function After(s: State, a: Action): State
    requires Enabled(s, a)
  {
    match a
    case ReadBuffered(data) => s.(out := Sending(data, false), got := s.got + data, buffered := [])
    case ReadStream(data, last) =>
      s.(out := Sending(data, last), got := s.got + data, readFailed := s.readFailed || last)
    case ReadError => s.(out := AskingExit, readFailed := true)
    case SendOutput(ok) =>
      if ok then s.(out := if s.out.last then AskingExit else Reading, sent := s.sent + [Output(s.out.chunk)])
      else s.(out := OutClosing, writeBroken := true)
    case AskExit(answer) => s.(out := SendingExit(if answer.Some? then answer.value else -1))
    case SendExit(ok) =>
      if ok then s.(out := OutClosing, sent := s.sent + [Exit(s.out.code)])
      else s.(out := OutClosing, writeBroken := true)
    case Receive(what, inbox) =>
      (match what
       case Garbage => s.(inbox := inbox)
       case Input(data) => s.(inbox := inbox, inp := Writing(data), heard := s.heard + [Typed(data)])
       case Resize(cols, rows) =>
         if cols > 0 && rows > 0 then s.(inbox := inbox, inp := Resizing(cols, rows), heard := s.heard + [Size(cols, rows)])
         else s.(inbox := inbox))
    case ReceiveError => s.(inp := InClosing)
    case WriteInput(part, ok) => s.(inp := if ok then Receiving else InClosing, fed := s.fed + [Typed(part)])
    case ResizeTty => s.(inp := Receiving, fed := s.fed + [Size(s.inp.cols, s.inp.rows)])
    case PingTick => s.(ping := Pinging)
    case PingSent(ok) => s.(ping := if ok then PingIdle else PingClosing)
    case PingStop => s.(ping := PingDone)
    case KeepTick => s.(keep := Updating)
    case KeepUpdated => s.(keep := KeepIdle)
    case KeepStop => s.(keep := KeepDone)
    case Enter(who) => s.(once := Inside(who, ToCancel))
    case CloseNext =>
      (match s.once.stage
       case ToCancel => s.(cancelled := true, once := Inside(s.once.who, ToCloseSession))
       case ToCloseSession => s.(sessionCloses := s.sessionCloses + Count(s.plan.session), once := Inside(s.once.who, ToCloseConn))
       case ToCloseConn => s.(connCloses := s.connCloses + Count(s.plan.conn), once := Finished))
    case Leave(who) =>
      (match who
       case Out => s.(out := OutDone)
       case In => s.(inp := InDone)
       case Ping => s.(ping := PingDone)
       case Handler => s.(handler := Returned))
    case WaitOver => s.(handler := HandlerClosing)
    case RequestCancelled => s.(cancelled := true)
  }

  /** A run: `ss[i + 1]` comes from `ss[i]` by `acts[i]`. */
  ghost predicate Execution(plan: Plan, acts: seq<Action>, ss: seq<State>) {
    && |ss| == |acts| + 1 && Initial(ss[0]) && ss[0].plan == plan
    && forall i :: 0 <= i < |acts| ==> Enabled(ss[i], acts[i]) && ss[i + 1] == After(ss[i], acts[i])
  }

  // ---- What every step keeps -----------------------------------------------------------------

  ghost predicate ClosesOnce(s: State) {
    && s.sessionCloses == (if s.once.Finished? || (s.once.Inside? && s.once.stage.ToCloseConn?) then Count(s.plan.session) else 0)
    && s.connCloses == (if s.once.Finished? then Count(s.plan.conn) else 0)
    && (s.once.Finished? ==> s.cancelled)
    && (s.once.Inside? && !s.once.stage.ToCancel? ==> s.cancelled)
  }

  ghost predicate Ordered(s: State) {
    && (s.once.Inside? ==> AtClose(s, s.once.who))
    && (s.out.OutDone? || s.inp.InDone? ==> s.once.Finished?)
    && (!s.handler.Waiting? ==> s.out.OutDone? && s.inp.InDone?)
    && s.inbox <= BUFFER
  }

  /** The output messages, joined. */
  ghost function Joined(ms: seq<Message>): Bytes {
    if ms == [] then []
    else Joined(ms[..|ms| - 1]) + match ms[|ms| - 1] case Output(d) => d case Exit(_) => []
  }

  ghost predicate OnlyOutput(ms: seq<Message>) { forall i :: 0 <= i < |ms| ==> ms[i].Output? }

  /** All messages but perhaps the last are output. */
  ghost predicate ExitLast(ms: seq<Message>) { forall i :: 0 <= i < |ms| - 1 ==> ms[i].Output? }

  ghost predicate HasExit(ms: seq<Message>) { ms != [] && ms[|ms| - 1].Exit? }

  ghost predicate OutputOk(s: State) { Delivers(s.out, s.sent, s.got, s.readFailed) }

  ghost predicate Delivers(out: OutPc, sent: seq<Message>, got: Bytes, readFailed: bool) {
    match out
    case Reading => OnlyOutput(sent) && Joined(sent) == got && !readFailed
    case Sending(chunk, last) => OnlyOutput(sent) && Joined(sent) + chunk == got && readFailed == last
    case AskingExit => OnlyOutput(sent) && Joined(sent) == got && readFailed
    case SendingExit(_) => OnlyOutput(sent) && Joined(sent) == got && readFailed
    case _ => ExitLast(sent) && Joined(sent) <= got && (HasExit(sent) ==> Joined(sent) == got && readFailed)
  }

  /** The steps of the pumps between their start and their end. */
  predicate OfOutput(a: Action) {
    a.ReadBuffered? || a.ReadStream? || a.ReadError? || a.SendOutput? || a.AskExit? || a.SendExit?
  }
  predicate OfInput(a: Action) { a.Receive? || a.ReceiveError? || a.WriteInput? || a.ResizeTty? }

  lemma OutputFrame(s: State, a: Action, t: State)
    requires Enabled(s, a) && OfOutput(a) && t == After(s, a)
    ensures t == s.(out := t.out, got := t.got, sent := t.sent, readFailed := t.readFailed,
                    buffered := t.buffered, writeBroken := t.writeBroken)
    ensures s.out != OutClosing && s.out != OutDone && t.out != OutDone
  {
  }

  lemma InputFrame(s: State, a: Action, t: State)
    requires Enabled(s, a) && OfInput(a) && t == After(s, a)
    ensures t == s.(inp := t.inp, inbox := t.inbox, heard := t.heard, fed := t.fed)
    ensures s.inp != InClosing && s.inp != InDone && t.inp != InDone
    ensures t.inbox <= BUFFER || t.inbox <= s.inbox
  {
  }

  /** The steps of the timers, and the end of the request. */
  predicate OfTimers(a: Action) {
    a.PingTick? || a.PingSent? || a.PingStop? || a.KeepTick? || a.KeepUpdated? || a.KeepStop? || a.RequestCancelled?
  }

  lemma TimerFrame(s: State, a: Action, t: State)
    requires Enabled(s, a) && OfTimers(a) && t == After(s, a)
    ensures t == s.(ping := t.ping, keep := t.keep, cancelled := t.cancelled)
    ensures s.cancelled ==> t.cancelled
    ensures (!s.ping.PingClosing? && !s.ping.PingDone?) || t.ping == s.ping
  {
  }

  /** The steps in and around `closeAll`. */
  predicate OfShutdown(a: Action) { a.Enter? || a.CloseNext? || a.Leave? || a.WaitOver? }

  lemma ShutdownFrame(s: State, a: Action, t: State)
    requires Enabled(s, a) && OfShutdown(a) && t == After(s, a)
    ensures t.got == s.got && t.sent == s.sent && t.readFailed == s.readFailed && t.inbox == s.inbox && t.plan == s.plan
    ensures t.heard == s.heard && t.fed == s.fed && t.buffered == s.buffered && t.writeBroken == s.writeBroken
    ensures t.out == s.out || (s.out.OutClosing? && t.out.OutDone?)
    ensures t.inp == s.inp || (s.inp.InClosing? && t.inp.InDone?)
  {
  }

  /** All steps but the pumps' leave the pumps' data alone. */
  lemma OtherFrame(s: State, a: Action, t: State)
    requires Enabled(s, a) && !OfOutput(a) && !OfInput(a) && t == After(s, a)
    ensures t.got == s.got && t.sent == s.sent && t.readFailed == s.readFailed && t.inbox == s.inbox && t.plan == s.plan
    ensures t.heard == s.heard && t.fed == s.fed
    ensures t.out == s.out || (s.out.OutClosing? && t.out.OutDone?)
    ensures t.inp == s.inp || (s.inp.InClosing? && t.inp.InDone?)
  {
    if OfTimers(a) {
      TimerFrame(s, a, t);
    } else {
      ShutdownFrame(s, a, t);
    }
  }

  lemma StepCloses(s: State, a: Action)
    requires ClosesOnce(s) && Enabled(s, a)
    ensures ClosesOnce(After(s, a))
  {
    if OfOutput(a) {
      OutputFrame(s, a, After(s, a));
    } else if OfInput(a) {
      InputFrame(s, a, After(s, a));
    } else if OfTimers(a) {
      TimerFrame(s, a, After(s, a));
    } else {
      ShutdownCloses(s, a);
    }
  }

  lemma ShutdownCloses(s: State, a: Action)
    requires ClosesOnce(s) && Enabled(s, a) && OfShutdown(a)
    ensures ClosesOnce(After(s, a))
  {
  }

  lemma StepOrdered(s: State, a: Action)
    requires Ordered(s) && Enabled(s, a)
    ensures Ordered(After(s, a))
  {
    if OfOutput(a) {
      OutputFrame(s, a, After(s, a));
    } else if OfInput(a) {
      InputFrame(s, a, After(s, a));
    } else if OfTimers(a) {
      TimerFrame(s, a, After(s, a));
    } else {
      ShutdownOrdered(s, a);
    }
  }

  lemma ShutdownOrdered(s: State, a: Action)
    requires Ordered(s) && Enabled(s, a) && OfShutdown(a)
    ensures Ordered(After(s, a))
  {
  }

  lemma JoinedSnoc(ms: seq<Message>, m: Message)
    ensures Joined(ms + [m]) == Joined(ms) + match m case Output(d) => d case Exit(_) => []
  {
    assert (ms + [m])[..|ms|] == ms;
  }

  lemma StepOutput(s: State, a: Action)
    requires OutputOk(s) && Enabled(s, a)
    ensures OutputOk(After(s, a))
  {
    if a == SendOutput(true) || a == SendExit(true) {
      StepSent(s, a);
    } else if OfOutput(a) {
      StepUnsent(s, a);
    } else if OfInput(a) {
      InputFrame(s, a, After(s, a));
    } else {
      OtherFrame(s, a, After(s, a));
      OnlyOutputIsExitLast(s.sent);
    }
  }

  lemma OnlyOutputIsExitLast(ms: seq<Message>)
    ensures OnlyOutput(ms) ==> ExitLast(ms) && !HasExit(ms)
  {
  }

  lemma StepUnsent(s: State, a: Action)
    requires OutputOk(s) && Enabled(s, a) && OfOutput(a) && a != SendOutput(true) && a != SendExit(true)
    ensures OutputOk(After(s, a))
  {
    OnlyOutputIsExitLast(s.sent);
  }

  lemma StepSent(s: State, a: Action)
    requires OutputOk(s) && Enabled(s, a) && (a == SendOutput(true) || a == SendExit(true))
    ensures OutputOk(After(s, a))
  {
    JoinedSnoc(s.sent, if a.SendOutput? then Output(s.out.chunk) else Exit(s.out.code));
  }

  lemma {:induction false} ExecutionKeeps(plan: Plan, acts: seq<Action>, ss: seq<State>, n: nat)
    requires Execution(plan, acts, ss) && n < |ss|
    ensures ss[n].plan == plan && ClosesOnce(ss[n]) && Ordered(ss[n]) && OutputOk(ss[n])
  {
    if n > 0 {
      ExecutionKeeps(plan, acts, ss, n - 1);
      StepKeeps(ss[n - 1], acts[n - 1], ss[n]);
    }
  }

  lemma StepKeeps(s: State, a: Action, t: State)
    requires ClosesOnce(s) && Ordered(s) && OutputOk(s) && Enabled(s, a) && t == After(s, a)
    ensures t.plan == s.plan && ClosesOnce(t) && Ordered(t) && OutputOk(t)
  {
    StepPlan(s, a);
    StepCloses(s, a);
    StepOrdered(s, a);
    StepOutput(s, a);
  }

  lemma StepPlan(s: State, a: Action)
    requires Enabled(s, a)
    ensures After(s, a).plan == s.plan
  {
  }

  // ---- Delivered output ------------------------------------------------------------------------

  function BytesOf(a: Action): Bytes { match a case ReadBuffered(d) => d case ReadStream(d, _) => d case _ => [] }

  /** The bytes that the reads of a run returned, in order. */
  ghost function BytesRead(acts: seq<Action>): Bytes {
    if acts == [] then [] else BytesRead(acts[..|acts| - 1]) + BytesOf(acts[|acts| - 1])
  }

  lemma GotStep(s: State, a: Action)
    requires Enabled(s, a)
    ensures After(s, a).got == s.got + BytesOf(a)
  {
  }

  lemma {:induction false} GotIsRead(plan: Plan, acts: seq<Action>, ss: seq<State>, n: nat)
    requires Execution(plan, acts, ss) && n <= |acts|
    ensures ss[n].got == BytesRead(acts[..n])
  {
    if n > 0 {
      GotIsRead(plan, acts, ss, n - 1);
      GotStep(ss[n - 1], acts[n - 1]);
      assert acts[..n][..n - 1] == acts[..n - 1];
    }
  }

  /** In every run the client has a prefix of the bytes read, at most one exit message with
      nothing after it, and with the exit message all bytes read up to the first read error. */
  lemma DeliveredOutput(plan: Plan, acts: seq<Action>, ss: seq<State>, n: nat)
    requires Execution(plan, acts, ss) && n <= |acts|
    ensures Joined(ss[n].sent) <= BytesRead(acts[..n])
    ensures forall i :: 0 <= i < |ss[n].sent| && ss[n].sent[i].Exit? ==>
              i == |ss[n].sent| - 1 && Joined(ss[n].sent) == BytesRead(acts[..n]) && ss[n].readFailed
  {
    ExecutionKeeps(plan, acts, ss, n);
    GotIsRead(plan, acts, ss, n);
  }

  lemma NoReadStep(s: State, a: Action)
    requires OutputOk(s) && s.readFailed && Enabled(s, a)
    ensures After(s, a).readFailed && After(s, a).got == s.got
  {
  }

  lemma {:induction false} GotFrozen(plan: Plan, acts: seq<Action>, ss: seq<State>, m: nat, n: nat)
    requires Execution(plan, acts, ss) && m <= n <= |acts| && ss[m].readFailed
    ensures ss[n].readFailed && ss[n].got == ss[m].got
    decreases n
  {
    if m < n {
      GotFrozen(plan, acts, ss, m, n - 1);
      ExecutionKeeps(plan, acts, ss, n - 1);
      NoReadStep(ss[n - 1], acts[n - 1]);
    }
  }

  /** After a read error nothing more is read. */
  lemma NoReadAfterError(plan: Plan, acts: seq<Action>, ss: seq<State>, m: nat, n: nat)
    requires Execution(plan, acts, ss) && m <= n <= |acts| && ss[m].readFailed
    ensures ss[n].readFailed && BytesRead(acts[..n]) == BytesRead(acts[..m])
  {
    GotFrozen(plan, acts, ss, m, n);
    GotIsRead(plan, acts, ss, m);
    GotIsRead(plan, acts, ss, n);
  }

  // ---- The exit code -----------------------------------------------------------------------

  /** Before the exit code is asked for. */
  ghost predicate Early(out: OutPc) { out.Reading? || out.Sending? || out.AskingExit? }

  /** The code that an answer stands for: a failed query counts as -1. */
  ghost predicate Means(a: Action, code: int) {
    a.AskExit? && (a.answer == Some(code) || (a.answer == None && code == -1))
  }

  /** `code` is about to be sent, or was. */
  ghost predicate Tells(s: State, code: int) { s.out == SendingExit(code) || Exit(code) in s.sent }

  lemma ExitStep(s: State, a: Action, t: State)
    requires OutputOk(s) && Enabled(s, a) && t == After(s, a)
    ensures Early(t.out) ==> Early(s.out) && !a.AskExit?
    ensures a.AskExit? ==> Early(s.out)
    ensures forall code :: Tells(t, code) ==> Tells(s, code) || Means(a, code)
  {
    if OfInput(a) {
      InputFrame(s, a, t);
    } else if !OfOutput(a) {
      OtherFrame(s, a, t);
    }
  }

  lemma ExitAt(plan: Plan, acts: seq<Action>, ss: seq<State>, i: nat)
    requires Execution(plan, acts, ss) && i < |acts|
    ensures Early(ss[i + 1].out) ==> Early(ss[i].out) && !acts[i].AskExit?
    ensures acts[i].AskExit? ==> Early(ss[i].out)
    ensures forall code :: Tells(ss[i + 1], code) ==> Tells(ss[i], code) || Means(acts[i], code)
  {
    ExecutionKeeps(plan, acts, ss, i);
    ExitStep(ss[i], acts[i], ss[i + 1]);
  }

  /** After the question it is never early again. */
  lemma AskedOnce(plan: Plan, acts: seq<Action>, ss: seq<State>, i: nat, n: nat)
    requires Execution(plan, acts, ss) && i < n <= |acts| && acts[i].AskExit?
    ensures !Early(ss[n].out)
  {
    var holds := seq(|ss|, m requires 0 <= m < |ss| => !Early(ss[m].out));
    ExitAt(plan, acts, ss, i);
    forall m | i + 1 <= m < n && !Early(ss[m].out)
      ensures !Early(ss[m + 1].out)
    {
      ExitAt(plan, acts, ss, m);
    }
    Persists(holds, i + 1, n);
  }

  lemma ToldWasAsked(plan: Plan, acts: seq<Action>, ss: seq<State>, n: nat, code: int)
    requires Execution(plan, acts, ss) && n <= |acts| && Tells(ss[n], code)
    ensures exists i :: 0 <= i < n && Means(acts[i], code)
  {
    var holds := seq(|ss|, m requires 0 <= m < |ss| => Tells(ss[m], code));
    var i := Begins(holds, n);
    ExitAt(plan, acts, ss, i);
  }

  /** The exit code is asked for at most once, and an exit message carries the answer, or -1
      where the query failed. */
  lemma ExitCode(plan: Plan, acts: seq<Action>, ss: seq<State>, n: nat)
    requires Execution(plan, acts, ss) && n <= |acts|
    ensures forall i, j :: 0 <= i < j < n ==> !(acts[i].AskExit? && acts[j].AskExit?)
    ensures forall code :: Exit(code) in ss[n].sent ==> exists i :: 0 <= i < n && Means(acts[i], code)
  {
    forall i, j | 0 <= i < j < n && acts[i].AskExit?
      ensures !acts[j].AskExit?
    {
      AskedOnce(plan, acts, ss, i, j);
      ExitAt(plan, acts, ss, j);
    }
    forall code | Exit(code) in ss[n].sent
      ensures exists i :: 0 <= i < n && Means(acts[i], code)
    {
      ToldWasAsked(plan, acts, ss, n, code);
    }
  }

  /** An output pump that is through has told the exit code, or a write to the client failed. */
  ghost predicate Told(s: State) { s.out.OutClosing? || s.out.OutDone? ==> s.writeBroken || HasExit(s.sent) }

  lemma ToldStep(s: State, a: Action, t: State)
    requires Told(s) && Enabled(s, a) && t == After(s, a)
    ensures Told(t)
  {
    if OfInput(a) {
      InputFrame(s, a, t);
    } else if OfTimers(a) {
      TimerFrame(s, a, t);
    } else if OfShutdown(a) {
      ShutdownFrame(s, a, t);
    }
  }

  /** In every run: when the output pump is through and no write to the client failed, the
      client has everything that was read, and then the exit code. */
  lemma CompleteDelivery(plan: Plan, acts: seq<Action>, ss: seq<State>, n: nat)
    requires Execution(plan, acts, ss) && n <= |acts|
    ensures (ss[n].out.OutClosing? || ss[n].out.OutDone?) && !ss[n].writeBroken ==>
      HasExit(ss[n].sent) && Joined(ss[n].sent) == BytesRead(acts[..n])
  {
    ToldAlways(plan, acts, ss, n);
    DeliveredOutput(plan, acts, ss, n);
  }

  lemma ToldAlways(plan: Plan, acts: seq<Action>, ss: seq<State>, n: nat)
    requires Execution(plan, acts, ss) && n <= |acts|
    ensures Told(ss[n])
  {
    var holds := seq(|ss|, m requires 0 <= m < |ss| => Told(ss[m]));
    forall m | 0 <= m < n && Told(ss[m])
      ensures Told(ss[m + 1])
    {
      ToldStep(ss[m], acts[m], ss[m + 1]);
    }
    Persists(holds, 0, n);
  }

  /** Every failure that a goroutine notices ends the session: a read from or a write to the
      client, a write to the container, a ping. So does the end of the process. */
  lemma GivingUpEnds(s: State, a: Action)
    requires Enabled(s, a)
    requires a == SendOutput(false) || a.SendExit? || a.ReceiveError? || (a.WriteInput? && !a.ok) || a == PingSent(false)
    ensures Ended(After(s, a))
  {
  }

  // ---- Input -----------------------------------------------------------------------------------

  /** What a message of the client orders, if anything: a size must not be empty. */
  function OrderOf(a: Action): seq<Order> {
    if a.Receive? && a.what.Input? then [Typed(a.what.data)]
    else if a.Receive? && a.what.Resize? && a.what.cols > 0 && a.what.rows > 0 then [Size(a.what.cols, a.what.rows)]
    else []
  }

  /** The orders of a run, as the client's messages came. */
  ghost function Orders(acts: seq<Action>): seq<Order> {
    if acts == [] then [] else Orders(acts[..|acts| - 1]) + OrderOf(acts[|acts| - 1])
  }

  /** All of `fed` is the beginning of `heard`, save that its last input may be cut short. */
  ghost predicate IsStartOf(fed: seq<Order>, heard: seq<Order>) {
    && |fed| <= |heard|
    && (forall i :: 0 <= i < |fed| - 1 ==> fed[i] == heard[i])
    && (fed != [] ==> var n := |fed| - 1;
          fed[n] == heard[n] || (fed[n].Typed? && heard[n].Typed? && fed[n].data <= heard[n].data))
  }

  ghost predicate Feeds(inp: InPc, heard: seq<Order>, fed: seq<Order>) {
    match inp
    case Receiving => fed == heard
    case Writing(data) => fed + [Typed(data)] == heard
    case Resizing(cols, rows) => fed + [Size(cols, rows)] == heard
    case _ => IsStartOf(fed, heard)
  }

  ghost predicate InputOk(s: State) { Feeds(s.inp, s.heard, s.fed) }

  lemma StepInput(s: State, a: Action, t: State)
    requires InputOk(s) && Enabled(s, a) && t == After(s, a)
    ensures InputOk(t) && t.heard == s.heard + OrderOf(a)
  {
    if OfOutput(a) {
      OutputFrame(s, a, t);
    } else if OfInput(a) {
      InputStep(s, a, t);
    } else {
      OtherFrame(s, a, t);
    }
  }

  lemma InputStep(s: State, a: Action, t: State)
    requires InputOk(s) && Enabled(s, a) && OfInput(a) && t == After(s, a)
    ensures InputOk(t) && t.heard == s.heard + OrderOf(a)
  {
    if a.WriteInput? {
      WriteStep(s, a, t);
    } else if a.Receive? {
      ReceiveStep(s, a, t);
    } else if a.ReceiveError? {
      StartOfItself(s.heard);
    }
  }

  lemma ReceiveStep(s: State, a: Action, t: State)
    requires InputOk(s) && Enabled(s, a) && a.Receive? && t == After(s, a)
    ensures InputOk(t) && t.heard == s.heard + OrderOf(a)
  {
  }

  lemma WriteStep(s: State, a: Action, t: State)
    requires InputOk(s) && Enabled(s, a) && a.WriteInput? && t == After(s, a)
    ensures InputOk(t) && t.heard == s.heard + OrderOf(a)
  {
    CutShort(s.fed, s.inp.data, a.part);
  }

  lemma CutShort(fed: seq<Order>, data: Bytes, part: Bytes)
    requires part <= data
    ensures IsStartOf(fed + [Typed(part)], fed + [Typed(data)])
  {
  }

  lemma StartOfItself(heard: seq<Order>)
    ensures IsStartOf(heard, heard)
  {
  }

  lemma {:induction false} ExecutionFeeds(plan: Plan, acts: seq<Action>, ss: seq<State>, n: nat)
    requires Execution(plan, acts, ss) && n <= |acts|
    ensures InputOk(ss[n]) && ss[n].heard == Orders(acts[..n])
  {
    if n > 0 {
      ExecutionFeeds(plan, acts, ss, n - 1);
      StepInput(ss[n - 1], acts[n - 1], ss[n]);
      assert acts[..n][..n - 1] == acts[..n - 1];
    }
  }

  /** In every run the container has got the client's input and sizes in order and without a
      gap, and all of them whenever the input pump waits for the next message. */
  lemma ForwardedInput(plan: Plan, acts: seq<Action>, ss: seq<State>, n: nat)
    requires Execution(plan, acts, ss) && n <= |acts|
    ensures IsStartOf(ss[n].fed, Orders(acts[..n]))
    ensures ss[n].inp.Receiving? ==> ss[n].fed == Orders(acts[..n])
  {
    ExecutionFeeds(plan, acts, ss, n);
  }

  // ---- Blocking --------------------------------------------------------------------------

  /* `Enabled` says which results a call may have; the predicates below say when a call need
     not return at all. Writes to the client have a deadline and the query for the exit code
     a timeout, so they always return. */

  /** The output pump reads from the container: silence lasts until the session is closed. */
  predicate ReadBlocks(s: State) { s.out.Reading? && s.buffered == [] && s.sessionCloses == 0 }

  /** The input pump reads from the client, whose pongs keep extending the read deadline. */
  predicate ReceiveBlocks(s: State) { s.inp.Receiving? && s.connCloses == 0 }

  /** It writes to a process that may never read its input. */
  predicate WriteBlocks(s: State) { s.inp.Writing? && s.sessionCloses == 0 }

  /** It waits for the engine under the session's context. */
  predicate ResizeBlocks(s: State) { s.inp.Resizing? && !s.cancelled }

  /** `Once.Do` makes everyone else wait for the one inside. */
  predicate OnceBlocks(s: State, g: Who) { AtClose(s, g) && s.once.Inside? && s.once.who != g }

  predicate WaitBlocks(s: State) { s.handler.Waiting? && !(s.out.OutDone? && s.inp.InDone?) }

  predicate Over(s: State, g: Who) {
    match g
    case Out => s.out.OutDone?
    case In => s.inp.InDone?
    case Ping => s.ping.PingDone?
    case Handler => s.handler.Returned?
  }

  predicate Blocked(s: State, g: Who) {
    || OnceBlocks(s, g)
    || (g.Out? && ReadBlocks(s))
    || (g.In? && (ReceiveBlocks(s) || WriteBlocks(s) || ResizeBlocks(s)))
    || (g.Handler? && WaitBlocks(s))
  }

  predicate Runnable(s: State, g: Who) { !Over(s, g) && !Blocked(s, g) }

  /** The goroutine that takes the step, if it is one of these four. */
  function Actor(s: State, a: Action): Option<Who> {
    match a
    case ReadBuffered(_) => Some(Out)
    case ReadStream(_, _) => Some(Out)
    case ReadError => Some(Out)
    case SendOutput(_) => Some(Out)
    case AskExit(_) => Some(Out)
    case SendExit(_) => Some(Out)
    case Receive(_, _) => Some(In)
    case ReceiveError => Some(In)
    case WriteInput(_, _) => Some(In)
    case ResizeTty => Some(In)
    case PingTick => Some(Ping)
    case PingSent(_) => Some(Ping)
    case PingStop => Some(Ping)
    case Enter(g) => Some(g)
    case CloseNext => if s.once.Inside? then Some(s.once.who) else None
    case Leave(g) => Some(g)
    case WaitOver => Some(Handler)
    case _ => None
  }

  /** A goroutine that is neither finished nor blocked has a step to take. */
  lemma RunnableMoves(s: State, g: Who) returns (a: Action)
    requires Runnable(s, g)
    ensures Enabled(s, a) && Actor(s, a) == Some(g)
  {
    if AtClose(s, g) {
      a := match s.once case Fresh => Enter(g) case Inside(_, _) => CloseNext case Finished => Leave(g);
    } else {
      match g
      case Out =>
        a := match s.out
          case Reading => if s.buffered != [] then ReadBuffered(s.buffered) else ReadError
          case Sending(_, _) => SendOutput(false)
          case AskingExit => AskExit(None)
          case _ => SendExit(false);
      case In =>
        a := match s.inp case Receiving => ReceiveError case Writing(_) => WriteInput([], false) case _ => ResizeTty;
      case Ping =>
        a := if s.ping.PingIdle? then PingTick else PingSent(false);
      case Handler =>
        a := WaitOver;
    }
  }

  /** Nobody but `closeAll` ends a wait on the session or the connection: the read and the
      write of the container end with the close of the session, and the read of the client
      with the close of the connection. */
  lemma OnlyCloseUnblocks(s: State, a: Action)
    requires Enabled(s, a)
    ensures ReadBlocks(s) && Actor(s, a) != Some(Out) && !ReadBlocks(After(s, a)) ==>
      a.CloseNext? && s.once.stage.ToCloseSession?
    ensures WriteBlocks(s) && Actor(s, a) != Some(In) && !WriteBlocks(After(s, a)) ==>
      a.CloseNext? && s.once.stage.ToCloseSession?
    ensures ReceiveBlocks(s) && Actor(s, a) != Some(In) && !ReceiveBlocks(After(s, a)) ==>
      a.CloseNext? && s.once.stage.ToCloseConn?
  {
  }

  /** After the shutdown, in every run, a pump that is not done is not blocked. */
  lemma NothingBlocked(acts: seq<Action>, ss: seq<State>, n: nat)
    requires Execution(Both, acts, ss) && n < |ss| && ss[n].once.Finished?
    ensures Runnable(ss[n], Out) || ss[n].out.OutDone?
    ensures Runnable(ss[n], In) || ss[n].inp.InDone?
    ensures ss[n].out.OutDone? && ss[n].inp.InDone? ==> Runnable(ss[n], Handler) || ss[n].handler.Returned?
  {
    ExecutionKeeps(Both, acts, ss, n);
  }

  // ---- Termination -------------------------------------------------------------------------

  /** A pump or the ping loop has given up. */
  ghost predicate Ended(s: State) { s.once != Fresh || s.out.OutClosing? || s.inp.InClosing? || s.ping.PingClosing? }

  function Rank(o: Once): nat {
    match o
    case Fresh => 4
    case Inside(_, ToCancel) => 3
    case Inside(_, ToCloseSession) => 2
    case Inside(_, ToCloseConn) => 1
    case Finished => 0
  }

  function OutLeft(o: OutPc, buffered: Bytes): nat {
    match o
    case Reading => if buffered != [] then 6 else 4
    case Sending(_, _) => if buffered != [] then 7 else 5
    case AskingExit => 3
    case SendingExit(_) => 2
    case OutClosing => 1
    case OutDone => 0
  }

  function InLeft(i: InPc, inbox: nat): nat {
    match i
    case Receiving => 2 + 2 * inbox
    case Writing(_) => 3 + 2 * inbox
    case Resizing(_, _) => 3 + 2 * inbox
    case InClosing => 1
    case InDone => 0
  }

  function HandlerLeft(h: HandlerPc): nat { match h case Waiting => 2 case HandlerClosing => 1 case Returned => 0 }

  /** More than the pumps and the handler can still do once everything is closed. */
  const CAP: nat := 7 + 3 + 2 * BUFFER + 2

  /** How many steps of leading goroutines are left at most. */
  function Bound(s: State): nat {
    if s.once.Finished? then OutLeft(s.out, s.buffered) + InLeft(s.inp, s.inbox) + HandlerLeft(s.handler)
    else Rank(s.once) + CAP
  }

  ghost predicate Good(s: State) { s.plan == Both && ClosesOnce(s) && Ordered(s) }

  /** The goroutines whose next step brings the end nearer: whoever is about to close or is
      closing, then the pumps, then the handler. */
  ghost predicate Leads(s: State, g: Who) {
    match s.once
    case Fresh => AtClose(s, g)
    case Inside(who, _) => g == who
    case Finished =>
      match g
      case Out => !s.out.OutDone?
      case In => !s.inp.InDone?
      case Ping => false
      case Handler => s.out.OutDone? && s.inp.InDone? && !s.handler.Returned?
  }

  lemma SomeoneLeads(s: State) returns (g: Who)
    requires Good(s) && Ended(s) && !s.handler.Returned?
    ensures Leads(s, g)
  {
    match s.once
    case Fresh => g := if s.out.OutClosing? then Out else if s.inp.InClosing? then In else Ping;
    case Inside(who, _) => g := who;
    case Finished => g := if !s.out.OutDone? then Out else if !s.inp.InDone? then In else Handler;
  }

  /** Whoever leads is not blocked. After the shutdown that is so because it closed both the
      session and the connection. */
  lemma LeaderRuns(s: State, g: Who)
    requires Good(s) && Leads(s, g)
    ensures Runnable(s, g)
  {
  }

  lemma LeaderSteps(s: State, g: Who, a: Action)
    requires Good(s) && Leads(s, g) && Enabled(s, a) && Actor(s, a) == Some(g)
    ensures Bound(After(s, a)) < Bound(s)
  {
  }

  lemma BoundFalls(s: State, a: Action)
    requires Good(s) && Enabled(s, a)
    ensures Bound(After(s, a)) <= Bound(s)
  {
    if OfTimers(a) {
      TimerFrame(s, a, After(s, a));
    } else if OfShutdown(a) {
      ShutdownFalls(s, a);
    } else {
      PumpFalls(s, a);
    }
  }

  lemma PumpFalls(s: State, a: Action)
    requires Good(s) && Enabled(s, a) && (OfOutput(a) || OfInput(a))
    ensures Bound(After(s, a)) <= Bound(s)
  {
    if OfOutput(a) {
      OutputFrame(s, a, After(s, a));
    } else {
      InputFrame(s, a, After(s, a));
    }
  }

  lemma ShutdownFalls(s: State, a: Action)
    requires Good(s) && Enabled(s, a) && OfShutdown(a)
    ensures Bound(After(s, a)) <= Bound(s)
  {
  }

  /** Others' steps leave the lead where it is, or bring the end nearer themselves. */
  lemma LeadStays(s: State, g: Who, a: Action)
    requires Good(s) && Leads(s, g) && Enabled(s, a) && Actor(s, a) != Some(g)
    ensures Leads(After(s, a), g) || Bound(After(s, a)) < Bound(s)
  {
  }

  lemma EndedStays(s: State, a: Action)
    requires Ended(s) && Enabled(s, a)
    ensures Ended(After(s, a))
  {
  }

  lemma ReturnedStep(s: State, a: Action)
    requires s.handler.Returned? && Enabled(s, a)
    ensures After(s, a).handler.Returned?
  {
  }

  // ---- Runs under a fair scheduler --------------------------------------------------------------

  /** A goroutine that could run all through `k` consecutive steps takes one of them. Nothing
      is promised to a blocked one. */
  ghost predicate Fair(acts: seq<Action>, ss: seq<State>, from: nat, k: nat)
    requires |ss| == |acts| + 1
  {
    forall i: nat, g :: from <= i && i + k <= |acts| && RunnableFor(ss, i, k, g) ==> StepsWithin(acts, ss, i, k, g)
  }

  ghost predicate RunnableFor(ss: seq<State>, i: nat, k: nat, g: Who)
    requires i + k < |ss|
  {
    forall n :: i <= n <= i + k ==> Runnable(ss[n], g)
  }

  ghost predicate StepsWithin(acts: seq<Action>, ss: seq<State>, i: nat, k: nat, g: Who)
    requires i + k <= |acts| < |ss|
  {
    exists n :: i <= n < i + k && Actor(ss[n], acts[n]) == Some(g)
  }

  /** A run as one goroutine's lead sees it: the bound, whether it leads, whether it moves. */
  datatype Track = Track(bound: nat, leads: bool, moves: bool)

  ghost predicate Descending(ts: seq<Track>) {
    forall n :: 0 <= n < |ts| - 1 ==>
      && ts[n + 1].bound <= ts[n].bound
      && (ts[n].leads ==> ts[n + 1].bound < ts[n].bound || (!ts[n].moves && ts[n + 1].leads))
  }

  /** Unless the bound has fallen, the goroutine has led all the time and has not moved. */
  lemma {:induction false} LeadKept(ts: seq<Track>, i: nat, n: nat)
    requires Descending(ts) && i <= n < |ts| && ts[i].leads
    ensures ts[n].bound <= ts[i].bound
    ensures ts[n].bound < ts[i].bound || (ts[n].leads && forall j :: i <= j < n ==> ts[j].leads && !ts[j].moves)
    decreases n
  {
    if i < n {
      LeadKept(ts, i, n - 1);
    }
  }

  ghost function Tracked(acts: seq<Action>, ss: seq<State>, g: Who): (ts: seq<Track>)
    requires |ss| == |acts| + 1
  {
    seq(|ss|, n requires 0 <= n < |ss| =>
      Track(Bound(ss[n]), Leads(ss[n], g), n < |acts| && Actor(ss[n], acts[n]) == Some(g)))
  }

  lemma TrackStep(s: State, a: Action, g: Who)
    requires Good(s) && Enabled(s, a)
    ensures Bound(After(s, a)) <= Bound(s)
    ensures Leads(s, g) ==> Bound(After(s, a)) < Bound(s) || (Actor(s, a) != Some(g) && Leads(After(s, a), g))
  {
    BoundFalls(s, a);
    if Leads(s, g) {
      if Actor(s, a) == Some(g) {
        LeaderSteps(s, g, a);
      } else {
        LeadStays(s, g, a);
      }
    }
  }

  lemma TrackDescends(acts: seq<Action>, ss: seq<State>, g: Who)
    requires Execution(Both, acts, ss)
    ensures Descending(Tracked(acts, ss, g))
  {
    forall n | 0 <= n < |acts|
      ensures Bound(ss[n + 1]) <= Bound(ss[n])
      ensures Leads(ss[n], g) ==>
        Bound(ss[n + 1]) < Bound(ss[n]) || (Actor(ss[n], acts[n]) != Some(g) && Leads(ss[n + 1], g))
    {
      ExecutionKeeps(Both, acts, ss, n);
      TrackStep(ss[n], acts[n], g);
    }
  }

  lemma LeaderRunsFor(acts: seq<Action>, ss: seq<State>, i: nat, k: nat, g: Who)
    requires Execution(Both, acts, ss) && i + k < |ss| && forall n :: i <= n <= i + k ==> Leads(ss[n], g)
    ensures RunnableFor(ss, i, k, g)
  {
    forall n | i <= n <= i + k
      ensures Runnable(ss[n], g)
    {
      ExecutionKeeps(Both, acts, ss, n);
      LeaderRuns(ss[n], g);
    }
  }

  /** One fair window lowers the bound. */
  lemma WindowLowers(acts: seq<Action>, ss: seq<State>, m: nat, k: nat, g: Who)
    requires Execution(Both, acts, ss) && m + k <= |acts| && Leads(ss[m], g) && Fair(acts, ss, m, k)
    ensures Bound(ss[m + k]) < Bound(ss[m])
  {
    var ts := Tracked(acts, ss, g);
    TrackDescends(acts, ss, g);
    TrackMoves(acts, ss, m, k, g, ts);
    LeadKept(ts, m, m + k);
  }

  /** In the window the goroutine loses the lead, or moves. */
  lemma TrackMoves(acts: seq<Action>, ss: seq<State>, m: nat, k: nat, g: Who, ts: seq<Track>)
    requires Execution(Both, acts, ss) && m + k <= |acts| && Fair(acts, ss, m, k) && ts == Tracked(acts, ss, g)
    ensures (exists n :: m <= n <= m + k && !ts[n].leads) || (exists n :: m <= n < m + k && ts[n].moves)
  {
    if forall n :: m <= n <= m + k ==> Leads(ss[n], g) {
      var n := LeaderMoves(acts, ss, m, k, g);
      assert ts[n].moves;
    } else {
      var n :| m <= n <= m + k && !Leads(ss[n], g);
      assert !ts[n].leads;
    }
  }

  lemma LeaderMoves(acts: seq<Action>, ss: seq<State>, m: nat, k: nat, g: Who) returns (n: nat)
    requires Execution(Both, acts, ss) && m + k <= |acts| && Fair(acts, ss, m, k)
    requires forall n :: m <= n <= m + k ==> Leads(ss[n], g)
    ensures m <= n < m + k && Actor(ss[n], acts[n]) == Some(g)
  {
    LeaderRunsFor(acts, ss, m, k, g);
    n :| m <= n < m + k && Actor(ss[n], acts[n]) == Some(g);
  }

  lemma EndedFrom(acts: seq<Action>, ss: seq<State>, m: nat, n: nat)
    requires Execution(Both, acts, ss) && m <= n < |ss| && Ended(ss[m])
    ensures Ended(ss[n])
  {
    var holds := seq(|ss|, i requires 0 <= i < |ss| => Ended(ss[i]));
    forall i | m <= i < n && Ended(ss[i])
      ensures Ended(ss[i + 1])
    {
      EndedStays(ss[i], acts[i]);
    }
    Persists(holds, m, n);
  }

  lemma ReturnedFrom(acts: seq<Action>, ss: seq<State>, m: nat, n: nat)
    requires Execution(Both, acts, ss) && m <= n < |ss| && ss[m].handler.Returned?
    ensures ss[n].handler.Returned?
  {
    var holds := seq(|ss|, i requires 0 <= i < |ss| => ss[i].handler.Returned?);
    forall i | m <= i < n && ss[i].handler.Returned?
      ensures ss[i + 1].handler.Returned?
    {
      ReturnedStep(ss[i], acts[i]);
    }
    Persists(holds, m, n);
  }

  /** Once anyone gives up, every schedule that is fair to the goroutines that can run brings
      the handler to its end, within a number of steps known at that point. */
  lemma {:induction false} SessionEnds(acts: seq<Action>, ss: seq<State>, m: nat, k: nat, budget: nat, end: nat)
    requires Execution(Both, acts, ss) && m < |ss| && Ended(ss[m]) && Fair(acts, ss, m, k)
    requires budget >= Bound(ss[m]) && end == m + budget * k <= |acts|
    ensures ss[end].handler.Returned?
    decreases budget
  {
    OneWindow(m, k, budget, end);
    if ss[m].handler.Returned? {
      ReturnedFrom(acts, ss, m, end);
    } else {
      BoundPositive(acts, ss, m);
      NextWindow(acts, ss, m, k);
      SessionEnds(acts, ss, m + k, k, budget - 1, end);
    }
  }

  lemma NextWindow(acts: seq<Action>, ss: seq<State>, m: nat, k: nat)
    requires Execution(Both, acts, ss) && m + k <= |acts| && Ended(ss[m]) && !ss[m].handler.Returned? && Fair(acts, ss, m, k)
    ensures Bound(ss[m + k]) < Bound(ss[m]) && Ended(ss[m + k]) && Fair(acts, ss, m + k, k)
  {
    ExecutionKeeps(Both, acts, ss, m);
    var g := SomeoneLeads(ss[m]);
    WindowLowers(acts, ss, m, k, g);
    EndedFrom(acts, ss, m, m + k);
  }

  /** Until the handler has returned something is left to do. */
  lemma BoundPositive(acts: seq<Action>, ss: seq<State>, m: nat)
    requires Execution(Both, acts, ss) && m < |ss| && Ended(ss[m]) && !ss[m].handler.Returned?
    ensures Bound(ss[m]) > 0
  {
    ExecutionKeeps(Both, acts, ss, m);
    var g := SomeoneLeads(ss[m]);
    LeaderRuns(ss[m], g);
    var a := RunnableMoves(ss[m], g);
    LeaderSteps(ss[m], g, a);
  }

  lemma OneWindow(m: nat, k: nat, budget: nat, end: nat)
    requires end == m + budget * k
    ensures m <= end
    ensures budget > 0 ==> end == (m + k) + (budget - 1) * k && m + k <= end
  {
    if budget > 0 {
      assert budget * k == k + (budget - 1) * k;
      assert (budget - 1) * k >= 0;
    }
  }

  // ---- Blocking is real ----------------------------------------------------------------------------

  /** A session with nothing to read, whose ping loop is about to ping. */
  function Quiet(pinging: bool): State {
    State(Both, Reading, Receiving, if pinging then Pinging else PingIdle, KeepIdle, Waiting, Fresh,
          false, 0, 0, false, [], 0, [], [], false, [], [])
  }

  /** A session that nobody gives up goes on for as many steps as you like: both pumps and the
      handler are blocked all the time, and the schedule is as fair as can be. */
  lemma OpenSessionGoesOn(n: nat) returns (acts: seq<Action>, ss: seq<State>)
    ensures Execution(Both, acts, ss) && |acts| == n && Fair(acts, ss, 0, 1)
    ensures forall i :: 0 <= i < |ss| ==>
      !Ended(ss[i]) && ReadBlocks(ss[i]) && ReceiveBlocks(ss[i]) && WaitBlocks(ss[i])
  {
    acts := seq(n, i => if i % 2 == 0 then PingTick else PingSent(true));
    ss := seq(n + 1, i => Quiet(i % 2 == 1));
    forall i | 0 <= i < n
      ensures Enabled(ss[i], acts[i]) && ss[i + 1] == After(ss[i], acts[i])
    {
    }
    forall i: nat, g | i + 1 <= n && RunnableFor(ss, i, 1, g)
      ensures StepsWithin(acts, ss, i, 1, g)
    {
      assert Runnable(ss[i], g);
      assert g == Ping && Actor(ss[i], acts[i]) == Some(g);
    }
  }

  // ---- Both closes are needed -------------------------------------------------------------------------

  ghost predicate Reaches(plan: Plan, s: State) {
    exists acts: seq<Action>, ss: seq<State> :: Execution(plan, acts, ss) && ss[|ss| - 1] == s
  }

  lemma Onwards(plan: Plan, s: State, a: Action, t: State)
    requires Reaches(plan, s) && Enabled(s, a) && t == After(s, a)
    ensures Reaches(plan, t)
  {
    var acts: seq<Action>, ss: seq<State> :| Execution(plan, acts, ss) && ss[|ss| - 1] == s;
    var acts', ss' := acts + [a], ss + [t];
    forall i | 0 <= i < |acts'|
      ensures Enabled(ss'[i], acts'[i]) && ss'[i + 1] == After(ss'[i], acts'[i])
    {
      if i < |acts| {
        assert Enabled(ss[i], acts[i]) && ss[i + 1] == After(ss[i], acts[i]);
      }
    }
    assert Execution(plan, acts', ss');
  }

  /** Someone gave up, the handler has not returned, and nobody can run. */
  ghost predicate Stuck(s: State) { Ended(s) && !s.handler.Returned? && forall g :: !Runnable(s, g) }

  /** As `s`, with `closeAll` carried out by `g`. */
  function Shut(s: State): State {
    s.(cancelled := true, once := Finished, sessionCloses := Count(s.plan.session), connCloses := Count(s.plan.conn))
  }

  lemma ReachShut(plan: Plan, s: State, g: Who)
    requires Reaches(plan, s) && AtClose(s, g) && s.once == Fresh && s.sessionCloses == 0 && s.connCloses == 0
    ensures Reaches(plan, Shut(s))
  {
    var s1 := s.(once := Inside(g, ToCancel));
    var s2 := s.(cancelled := true, once := Inside(g, ToCloseSession));
    var s3 := s.(cancelled := true, once := Inside(g, ToCloseConn), sessionCloses := Count(s.plan.session));
    Onwards(plan, s, Enter(g), s1);
    Onwards(plan, s1, CloseNext, s2);
    Onwards(plan, s2, CloseNext, s3);
    Onwards(plan, s3, CloseNext, Shut(s));
  }

  lemma ReachQuiet(plan: Plan)
    ensures Reaches(plan, Quiet(false).(plan := plan))
  {
    assert Execution(plan, [], [Quiet(false).(plan := plan)]);
  }

  function Exited(plan: Plan): State {
    Quiet(false).(plan := plan, out := OutClosing, sent := [Exit(0)], readFailed := true)
  }

  lemma ReachExited(plan: Plan)
    ensures Reaches(plan, Exited(plan))
  {
    ReachQuiet(plan);
    var s0 := Quiet(false).(plan := plan);
    var s1 := s0.(out := AskingExit, readFailed := true);
    var s2 := s1.(out := SendingExit(0));
    Onwards(plan, s0, ReadError, s1);
    Onwards(plan, s1, AskExit(Some(0)), s2);
    Onwards(plan, s2, SendExit(true), Exited(plan));
  }

  /** As `s`, with `closeAll` done, its caller gone and the ping loop stopped. */
  lemma ReachGone(plan: Plan, s: State, g: Who, gone: State)
    requires Reaches(plan, Shut(s)) && AtClose(s, g) && s.ping.PingIdle?
    requires gone == After(Shut(s), Leave(g)).(ping := PingDone)
    ensures Reaches(plan, gone)
  {
    var s1 := After(Shut(s), Leave(g));
    Onwards(plan, Shut(s), Leave(g), s1);
    Onwards(plan, s1, PingStop, gone);
  }

  /** The process exits and the output pump gives up; the input pump sits on its read. */
  lemma OpenConnSticks(plan: Plan) returns (s: State)
    requires !plan.conn
    ensures Reaches(plan, s) && Stuck(s) && s.out.OutDone? && s.sent == [Exit(0)] && ReceiveBlocks(s)
  {
    ReachExited(plan);
    ReachShut(plan, Exited(plan), Out);
    s := Shut(Exited(plan)).(out := OutDone, ping := PingDone);
    ReachGone(plan, Exited(plan), Out, s);
  }

  /** The client goes away and the input pump gives up; the output pump sits on its read. */
  lemma OpenSessionSticks(plan: Plan) returns (s: State)
    requires !plan.session
    ensures Reaches(plan, s) && Stuck(s) && s.inp.InDone? && ReadBlocks(s)
  {
    ReachLeft(plan);
    ReachShut(plan, Left(plan), In);
    s := Shut(Left(plan)).(inp := InDone, ping := PingDone);
    ReachGone(plan, Left(plan), In, s);
  }

  function Left(plan: Plan): State { Quiet(false).(plan := plan, inp := InClosing) }

  lemma ReachLeft(plan: Plan)
    ensures Reaches(plan, Left(plan))
  {
    ReachQuiet(plan);
    Onwards(plan, Quiet(false).(plan := plan), ReceiveError, Left(plan));
  }

  /** A stuck session stays stuck until the container or the client says something. */
  lemma StuckStays(s: State, a: Action)
    requires ClosesOnce(s) && Stuck(s) && s.once.Finished? && Enabled(s, a) && Actor(s, a) != Some(Out) && Actor(s, a) != Some(In)
    ensures Stuck(After(s, a))
  {
    assert !Runnable(s, Ping) && !Runnable(s, Handler) && !Runnable(s, Out) && !Runnable(s, In);
  }

  /** No session gets stuck exactly because `closeAll` closes both the session and the
      connection: leaving out either gets some run stuck. */
  lemma BothClosesNeeded(plan: Plan)
    ensures (forall s :: Reaches(plan, s) ==> !Stuck(s)) <==> plan == Both
  {
    if plan == Both {
      forall s | Reaches(plan, s)
        ensures !Stuck(s)
      {
        NeverStuck(s);
      }
    } else if !plan.conn {
      var s := OpenConnSticks(plan);
    } else {
      var s := OpenSessionSticks(plan);
    }
  }

  lemma NeverStuck(s: State)
    requires Reaches(Both, s)
    ensures !Stuck(s)
  {
    var acts: seq<Action>, ss: seq<State> :| Execution(Both, acts, ss) && ss[|ss| - 1] == s;
    ExecutionKeeps(Both, acts, ss, |ss| - 1);
    if Ended(s) && !s.handler.Returned? {
      var g := SomeoneLeads(s);
      LeaderRuns(s, g);
    }
  }

  /** Nothing is ever closed twice, and when the handler has returned both pumps are done and
      session and connection have each been closed exactly once. */
  lemma ClosedExactlyOnce(acts: seq<Action>, ss: seq<State>, n: nat)
    requires Execution(Both, acts, ss) && n < |ss|
    ensures ss[n].sessionCloses <= 1 && ss[n].connCloses <= 1
    ensures ss[n].handler.Returned? ==>
      ss[n].sessionCloses == 1 && ss[n].connCloses == 1 && ss[n].out.OutDone? && ss[n].inp.InDone? && ss[n].cancelled
  {
    ExecutionKeeps(Both, acts, ss, n);
  }
}
