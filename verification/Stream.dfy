/** Which payloads an upstream event stream carries, line by line. */
module StreamLines {

  datatype Verdict = Skip | DoneMark | Data(payload: string)

  const MIN_LINE_LENGTH := 6

  predicate IsSpace(c: char) {
    c in {'\t', '\n', '\U{0B}', '\U{0C}', '\r', ' ', '\U{85}', '\U{A0}', '\U{1680}',
          '\U{2028}', '\U{2029}', '\U{202F}', '\U{205F}', '\U{3000}'} || '\U{2000}' <= c <= '\U{200A}'
  }

  function TrimLeft(s: string): string {
    if s != "" && IsSpace(s[0]) then TrimLeft(s[1..]) else s
  }

  function TrimRight(s: string): string {
    if s != "" && IsSpace(s[|s| - 1]) then TrimRight(s[..|s| - 1]) else s
  }

  /** The field value after "data:", less one optional space, trimmed. */
  function FieldValue(line: string): string
    requires "data:" <= line
  {
    var data := line[5..];
    TrimRight(TrimLeft(if data != "" && data[0] == ' ' then data[1..] else data))
  }

  function Classify(line: string): Verdict {
    if |line| < MIN_LINE_LENGTH then Skip
    else if line == "[DONE]" then DoneMark
    else if !("data:" <= line) then Skip
    else
      var data := FieldValue(line);
      if data == "" then Skip else if data == "[DONE]" then DoneMark else Data(data)
  }

  function Verdicts(lines: seq<string>): (vs: seq<Verdict>)
    ensures |vs| == |lines|
  {
    if lines == [] then [] else [Classify(lines[0])] + Verdicts(lines[1..])
  }

  /** The payloads of a stream: its data fields in order, up to the first end mark. */
  function Payloads(lines: seq<string>): seq<string> {
    Carried(Verdicts(lines))
  }

  function Carried(vs: seq<Verdict>): seq<string> {
    if vs == [] then []
    else match vs[0]
      case Skip => Carried(vs[1..])
      case DoneMark => []
      case Data(d) => [d] + Carried(vs[1..])
  }

  function Yield(v: Verdict): seq<string> {
    match v case Data(d) => [d] case _ => []
  }

  lemma {:induction false} CarriedConcat(xs: seq<Verdict>, ys: seq<Verdict>)
    ensures Carried(xs) <= Carried(xs + ys)
    ensures DoneMark !in xs ==> Carried(xs + ys) == Carried(xs) + Carried(ys)
    ensures DoneMark in xs ==> Carried(xs + ys) == Carried(xs)
  {
    if xs == [] {
      assert xs + ys == ys;
    } else {
      assert (xs + ys)[1..] == xs[1..] + ys;
      assert xs == [xs[0]] + xs[1..];
      CarriedConcat(xs[1..], ys);
    }
  }

  lemma CarriedSnoc(xs: seq<Verdict>, v: Verdict)
    requires DoneMark !in xs
    ensures Carried(xs + [v]) == Carried(xs) + Yield(v)
  {
    CarriedConcat(xs, [v]);
    assert Carried([v]) == Yield(v) by { assert [v][1..] == []; }
  }

  lemma ProperVerdict(line: string)
    ensures Classify(line).Data? ==> Classify(line).payload != "" && Classify(line).payload != "[DONE]"
  {
  }

  lemma {:induction false} PayloadsAreProper(lines: seq<string>)
    ensures forall d :: d in Payloads(lines) ==> d != "" && d != "[DONE]"
  {
    if lines != [] {
      var vs := Verdicts(lines);
      PayloadsAreProper(lines[1..]);
      ProperVerdict(lines[0]);
      assert vs[1..] == Verdicts(lines[1..]);
      assert vs[0] == Classify(lines[0]);
      forall d | d in Payloads(lines) ensures d != "" && d != "[DONE]" {
        if d !in Payloads(lines[1..]) { assert vs[0] == Data(d); }
      }
    }
  }

  // ---------------------------------------------------------------- which lines carry what

  predicate Blank(s: string) {
    forall i :: 0 <= i < |s| ==> IsSpace(s[i])
  }

  lemma {:induction false} TrimLeftSplits(s: string) returns (pre: string)
    ensures Blank(pre) && s == pre + TrimLeft(s)
    ensures TrimLeft(s) != "" ==> !IsSpace(TrimLeft(s)[0])
  {
    pre := "";
    if s != "" && IsSpace(s[0]) {
      var rest := TrimLeftSplits(s[1..]);
      pre := [s[0]] + rest;
      assert s == [s[0]] + s[1..];
    }
  }

  lemma {:induction false} TrimRightSplits(s: string) returns (post: string)
    ensures Blank(post) && s == TrimRight(s) + post
    ensures TrimRight(s) != "" ==> !IsSpace(TrimRight(s)[|TrimRight(s)| - 1])
  {
    post := "";
    if s != "" && IsSpace(s[|s| - 1]) {
      var n := |s| - 1;
      var rest := TrimRightSplits(s[..n]);
      post := rest + [s[n]];
      assert s == s[..n] + [s[n]];
    }
  }

  lemma {:induction false} TrimLeftSkips(pre: string, s: string)
    requires Blank(pre) && (s != "" ==> !IsSpace(s[0]))
    ensures TrimLeft(pre + s) == s
  {
    if pre == "" {
      assert pre + s == s;
    } else {
      assert (pre + s)[0] == pre[0] && (pre + s)[1..] == pre[1..] + s;
      TrimLeftSkips(pre[1..], s);
    }
  }

  lemma {:induction false} TrimRightSkips(s: string, post: string)
    requires Blank(post) && (s != "" ==> !IsSpace(s[|s| - 1]))
    ensures TrimRight(s + post) == s
  {
    if post == "" {
      assert s + post == s;
    } else {
      var n := |post| - 1;
      assert (s + post)[|s + post| - 1] == post[n] && (s + post)[..|s + post| - 1] == s + post[..n];
      TrimRightSkips(s, post[..n]);
    }
  }

  /** The line is the data field d, with any spaces around it. */
  ghost predicate IsField(line: string, d: string) {
    exists pre, post :: Blank(pre) && Blank(post) && line == "data:" + pre + d + post
  }

  /** What trimming leaves is what stands between the spaces around it. */
  lemma TrimSplits(s: string) returns (pre: string, post: string)
    ensures Blank(pre) && Blank(post) && s == pre + TrimRight(TrimLeft(s)) + post
    ensures var d := TrimRight(TrimLeft(s)); d != "" ==> !IsSpace(d[0]) && !IsSpace(d[|d| - 1])
  {
    pre := TrimLeftSplits(s);
    post := TrimRightSplits(TrimLeft(s));
    if TrimRight(TrimLeft(s)) != "" { assert TrimLeft(s)[0] == TrimRight(TrimLeft(s))[0]; }
  }

  lemma FieldSplits(line: string)
    requires "data:" <= line
    ensures IsField(line, FieldValue(line))
    ensures var d := FieldValue(line); d != "" ==> !IsSpace(d[0]) && !IsSpace(d[|d| - 1])
  {
    var data := line[5..];
    assert line == "data:" + data;
    if data != "" && data[0] == ' ' {
      var pre, post := TrimSplits(data[1..]);
      assert data == [' '] + data[1..];
      FieldWith(line, [' '] + pre, FieldValue(line), post);
    } else {
      var pre, post := TrimSplits(data);
      FieldWith(line, pre, FieldValue(line), post);
    }
  }

  lemma FieldWith(line: string, pre: string, d: string, post: string)
    requires Blank(pre) && Blank(post) && line == "data:" + (pre + d + post)
    ensures IsField(line, d)
  {
    assert line == "data:" + pre + d + post;
  }

  lemma FieldIs(line: string, pre: string, d: string, post: string)
    requires Blank(pre) && Blank(post) && line == "data:" + pre + d + post
    requires d != "" && !IsSpace(d[0]) && !IsSpace(d[|d| - 1])
    ensures "data:" <= line && FieldValue(line) == d
  {
    assert line[..5] == "data:" && line[5..] == pre + d + post;
    var data := line[5..];
    var rest := if data != "" && data[0] == ' ' then data[1..] else data;
    var left := if pre != "" && pre[0] == ' ' then pre[1..] else pre;
    assert pre == "" ==> data[0] == d[0];
    assert rest == left + (d + post);
    TrimLeftSkips(left, d + post);
    TrimRightSkips(d, post);
  }

  /** A line carries a payload exactly when it is a data field of it, spaces aside, and the
      payload is neither empty nor the end mark; it is an end mark exactly when it is the bare
      mark or a data field of it. All other lines are skipped. */
  lemma ClassifyIff(line: string, d: string)
    ensures Classify(line) == Data(d) <==> Carriable(d) && IsField(line, d)
    ensures Classify(line) == DoneMark <==> line == "[DONE]" || IsField(line, "[DONE]")
  {
    if "data:" <= line {
      FieldSplits(line);
      assert line[0] == 'd' && "[DONE]"[0] == '[';
    }
    if Carriable(d) && IsField(line, d) { FieldClassified(line, d); }
    if IsField(line, "[DONE]") { FieldClassified(line, "[DONE]"); }
  }

  lemma FieldClassified(line: string, d: string)
    requires (Carriable(d) || d == "[DONE]") && IsField(line, d)
    ensures "data:" <= line && Classify(line) == if d == "[DONE]" then DoneMark else Data(d)
  {
    var pre, post :| Blank(pre) && Blank(post) && line == "data:" + pre + d + post;
    FieldIs(line, pre, d, post);
    assert line[0] == 'd' && "[DONE]"[0] == '[';
  }

  // ---------------------------------------------------------------- round trip

  /** A payload that a data field can carry: not empty, not the end mark, no outer spaces. */
  predicate Carriable(d: string) {
    d != "" && d != "[DONE]" && !IsSpace(d[0]) && !IsSpace(d[|d| - 1])
  }

  function Frame(d: string): string {
    "data: " + d
  }

  lemma FrameCarries(d: string)
    requires Carriable(d) || d == "[DONE]"
    ensures Classify(Frame(d)) == if d == "[DONE]" then DoneMark else Data(d)
  {
    var line := Frame(d);
    assert line[..5] == "data:" && line[5..] == " " + d && (" " + d)[1..] == d;
    assert TrimLeft(d) == d && TrimRight(d) == d;
    assert FieldValue(line) == d;
    assert line[0] == 'd' && "[DONE]"[0] == '[';
  }

  function Frames(ds: seq<string>): seq<string> {
    if ds == [] then [] else [Frame(ds[0])] + Frames(ds[1..])
  }

  /** What an upstream frames and ends properly is what the scanner extracts, and nothing
      that follows the end mark is. */
  lemma {:induction false} FramesRoundTrip(ds: seq<string>, after: seq<string>)
    requires forall d :: d in ds ==> Carriable(d)
    ensures Payloads(Frames(ds) + [Frame("[DONE]")] + after) == ds
  {
    var lines := Frames(ds) + [Frame("[DONE]")] + after;
    if ds == [] {
      FrameCarries("[DONE]");
      assert lines[0] == Frame("[DONE]") && Verdicts(lines)[0] == DoneMark;
    } else {
      FrameCarries(ds[0]);
      assert lines[0] == Frame(ds[0]);
      assert lines[1..] == Frames(ds[1..]) + [Frame("[DONE]")] + after;
      FramesRoundTrip(ds[1..], after);
      assert Verdicts(lines)[0] == Data(ds[0]) && Verdicts(lines)[1..] == Verdicts(lines[1..]);
      assert ds == [ds[0]] + ds[1..];
    }
  }
}

/** The stream scanner: scanner, data-handler and ping goroutines and the main loop, one
    step at a time, over a bounded data channel, a stop channel and a write mutex. */
module StreamScanner {
  import opened StreamLines

  datatype Reason = Unset | Done | Timeout | ClientGone | Error | HandlerStop | PingFail | ScannerErr | Eof

  /** Why the scanner goroutine returned. */
  datatype ScanEnd = SawDone | SawEof | SawError | SawStop | SawGone | Panicked

  datatype ScanPc = Scanning | Checking(line: Verdict) | Parsing(line: Verdict) | Sending(payload: string)
                  | ScanExit(cause: ScanEnd, signalled: bool)

  /** How the data-handler goroutine returned. */
  datatype HandleEnd = Drained | Halted | Crashed

  datatype HandlePc = Receiving | Locking(payload: string) | Handling | HandleExit(how: HandleEnd, signalled: bool)

  datatype PingPc = Idle | Wanting | Writing | PingExit

  datatype MainPc = Waiting | Stopping | Joining | Left(clean: bool)

  datatype Owner = Free | ByHandler | ByPing

  datatype State = State(
    input: seq<Verdict>,      // every line of the upstream body, as it will be read
    taken: seq<Verdict>,      // lines the scanner has parsed
    scan: ScanPc,
    lost: seq<string>,        // payload the scanner held when it returned
    chan: seq<string>,
    handle: HandlePc,
    stopped: bool,            // StreamResult.stopped
    doneCalled: bool,         // the callback has called Done
    delivered: seq<string>,   // payloads passed to the callback
    ping: PingPc,
    main: MainPc,
    stop: nat,                // signals in stopChan
    gone: bool,               // the client's context is cancelled
    mutex: Owner,
    reason: Reason)

  const DATA_CHAN_SIZE := 10
  const STOP_CHAN_SIZE := 3

  datatype ScanStep = ScanLine | ScanEnds | ScanFails | ScanPanics | CheckPasses | Parse | Send
                    | ScannerStop | ScannerGone | ScannerSignal

  datatype HandleStep = Receive | ReceiveClosed | Lock | CallStop | CallDone | CallReturns | CallPanics | HandlerSignal

  datatype PingStep = Tick | PingLock | PingWrite(ok: bool) | PingStop | PingGone

  datatype MainStep = Cancel | IdleTimeout | MainStop | MainGone | MainSignal | Join | JoinTimeout

  /** One step of one of the goroutines. */
  datatype Step = Scanner(scan: ScanStep) | Handler(handle: HandleStep) | Ping(ping: PingStep) | Main(main: MainStep)

  function Start(input: seq<Verdict>): State {
    State(input, [], Scanning, [], [], Receiving, false, false, [], Idle, Waiting, 0, false, Free, Unset)
  }

  /** First writer wins. */
  function Ended(r: Reason, new_: Reason): Reason {
    if r == Unset then new_ else r
  }

  /** Non-blocking send to the stop channel. */
  function Signalled(n: nat): nat {
    if n < STOP_CHAN_SIZE then n + 1 else n
  }

  function ScannerReturns(s: State, cause: ScanEnd): State {
    s.(scan := ScanExit(cause, false), lost := if s.scan.Sending? then [s.scan.payload] else [])
  }

  function ScannerNext(s: State, step: ScanStep): State {
    if step.ScanLine? || step.CheckPasses? || step.Parse? || step.Send? then ScannerWorks(s, step)
    else ScannerLeaves(s, step)
  }

  /** The steps for one line. */
  function ScannerWorks(s: State, step: ScanStep): State {
    match step
    case ScanLine =>
      if s.scan == Scanning && |s.taken| < |s.input| then s.(scan := Checking(s.input[|s.taken|])) else s
    case CheckPasses =>
      if s.scan.Checking? && s.stop == 0 && !s.gone then s.(scan := Parsing(s.scan.line)) else s
    case Parse =>
      if s.scan.Parsing? then
        var t := s.(taken := s.taken + [s.scan.line]);
        match s.scan.line
        case Skip => t.(scan := Scanning)
        case DoneMark => ScannerReturns(t, SawDone).(reason := Ended(s.reason, Done))
        case Data(d) => t.(scan := Sending(d))
      else s
    case Send =>
      if s.scan.Sending? && |s.chan| < DATA_CHAN_SIZE then
        s.(scan := Scanning, chan := s.chan + [s.scan.payload])
      else s
    case _ => s
  }

  /** The ways out of the scanner loop, and its deferred signal. */
  function ScannerLeaves(s: State, step: ScanStep): State {
    match step
    case ScanEnds =>
      if s.scan == Scanning && |s.taken| == |s.input| then
        ScannerReturns(s, SawEof).(reason := Ended(s.reason, Eof))
      else s
    case ScanFails =>
      if s.scan == Scanning then
        ScannerReturns(s, SawError).(reason := Ended(s.reason, if s.gone then Eof else ScannerErr))
      else s
    case ScanPanics =>
      if !s.scan.ScanExit? then ScannerReturns(s, Panicked) else s
    case ScannerStop =>
      if (s.scan.Checking? || s.scan.Sending?) && s.stop > 0 then
        ScannerReturns(s, SawStop).(stop := s.stop - 1)
      else s
    case ScannerGone =>
      if (s.scan.Checking? || s.scan.Sending?) && s.gone then
        ScannerReturns(s, SawGone).(reason := Ended(s.reason, ClientGone))
      else s
    case ScannerSignal =>
      if s.scan.ScanExit? && !s.scan.signalled then
        s.(scan := ScanExit(s.scan.cause, true), stop := Signalled(s.stop),
           reason := if s.scan.cause == Panicked then Ended(s.reason, Error) else s.reason)
      else s
    case _ => s
  }

  function HandlerNext(s: State, step: HandleStep): State {
    match step
    case Receive =>
      if s.handle == Receiving && s.chan != [] then
        s.(handle := Locking(s.chan[0]), chan := s.chan[1..], stopped := false)
      else s
    case ReceiveClosed =>
      if s.handle == Receiving && s.chan == [] && s.scan.ScanExit? then s.(handle := HandleExit(Drained, false)) else s
    case Lock =>
      if s.handle.Locking? && s.mutex == Free then
        s.(handle := Handling, mutex := ByHandler, delivered := s.delivered + [s.handle.payload])
      else s
    case CallStop =>
      if s.handle == Handling then s.(stopped := true, reason := Ended(s.reason, HandlerStop)) else s
    case CallDone =>
      if s.handle == Handling then s.(stopped := true, doneCalled := true, reason := Ended(s.reason, Done)) else s
    case CallReturns =>
      if s.handle == Handling then
        s.(handle := if s.stopped then HandleExit(Halted, false) else Receiving, mutex := Free)
      else s
    case CallPanics =>
      if s.handle == Handling then s.(handle := HandleExit(Crashed, false)) else s
    case HandlerSignal =>
      if s.handle.HandleExit? && !s.handle.signalled then
        s.(handle := HandleExit(s.handle.how, true), stop := Signalled(s.stop),
           reason := if s.handle.how == Crashed then Ended(s.reason, Error) else s.reason)
      else s
  }

  function PingNext(s: State, step: PingStep): State {
    match step
    case Tick => if s.ping == Idle then s.(ping := Wanting) else s
    case PingLock => if s.ping == Wanting && s.mutex == Free then s.(ping := Writing, mutex := ByPing) else s
    case PingWrite(ok) =>
      if s.ping != Writing then s
      else if s.gone then s.(ping := PingExit, mutex := Free)
      else if ok then s.(ping := Idle, mutex := Free)
      else s.(ping := PingExit, mutex := Free, stop := Signalled(s.stop), reason := Ended(s.reason, PingFail))
    case PingStop => if s.ping == Idle && s.stop > 0 then s.(ping := PingExit, stop := s.stop - 1) else s
    case PingGone => if s.ping == Idle && s.gone then s.(ping := PingExit) else s
  }

  function MainNext(s: State, step: MainStep): State {
    match step
    case Cancel => s.(gone := true)
    case IdleTimeout => if s.main == Waiting then s.(main := Stopping, reason := Ended(s.reason, Timeout)) else s
    case MainStop => if s.main == Waiting && s.stop > 0 then s.(main := Stopping, stop := s.stop - 1) else s
    case MainGone =>
      if s.main == Waiting && s.gone then s.(main := Stopping, reason := Ended(s.reason, ClientGone)) else s
    case MainSignal => if s.main == Stopping then s.(main := Joining, stop := Signalled(s.stop)) else s
    case Join =>
      if s.main == Joining && s.scan.ScanExit? && s.handle.HandleExit? && s.ping == PingExit then
        s.(main := Left(true))
      else s
    case JoinTimeout => if s.main == Joining then s.(main := Left(false)) else s
  }

  function Next(s: State, step: Step): State {
    match step
    case Scanner(x) => ScannerNext(s, x)
    case Handler(x) => HandlerNext(s, x)
    case Ping(x) => PingNext(s, x)
    case Main(x) => MainNext(s, x)
  }

  function Run(s: State, steps: seq<Step>): State {
    if steps == [] then s else Next(Run(s, steps[..|steps| - 1]), steps[|steps| - 1])
  }

  // ---------------------------------------------------------------- invariant

  function Held(h: HandlePc): seq<string> {
    if h.Locking? then [h.payload] else []
  }

  function InHand(p: ScanPc): seq<string> {
    if p.Sending? then [p.payload] else []
  }

  /** Every payload of the parsed lines is in exactly one place, and in order. */
  ghost predicate Conserved(front: seq<string>, chan: seq<string>, back: seq<string>, taken: seq<Verdict>) {
    front + chan + back == Carried(taken)
  }

  /** Payloads that reached the handler. */
  function Front(s: State): seq<string> {
    s.delivered + Held(s.handle)
  }

  /** Payloads that have not reached the channel. */
  function Back(s: State): seq<string> {
    InHand(s.scan) + s.lost
  }

  ghost predicate Reading(input: seq<Verdict>, taken: seq<Verdict>, scan: ScanPc) {
    && taken <= input
    && (scan.Checking? || scan.Parsing? ==> |taken| < |input| && scan.line == input[|taken|])
    && (DoneMark in taken <==> scan.ScanExit? && scan.cause == SawDone)
    && (scan.ScanExit? && scan.cause == SawEof ==> taken == input)
  }

  /** The channels stay within their capacity. */
  ghost predicate Bounds(s: State) {
    |s.chan| <= DATA_CHAN_SIZE && s.stop <= STOP_CHAN_SIZE
  }

  /** Only a scanner that was stopped, lost its client or panicked drops a payload. */
  ghost predicate Losses(s: State) {
    && |s.lost| <= 1
    && (s.lost != [] ==>
          s.scan.ScanExit? && (s.scan.cause == SawStop || s.scan.cause == SawGone || s.scan.cause == Panicked))
  }

  ghost predicate Exits(s: State) {
    && (s.handle.HandleExit? && s.handle.how == Drained ==> s.chan == [] && s.scan.ScanExit?)
    && (s.main.Left? && s.main.clean ==> s.scan.ScanExit? && s.handle.HandleExit? && s.ping == PingExit)
  }

  /** The mutex has at most one owner; a panicking callback keeps it. */
  ghost predicate Exclusion(mutex: Owner, handle: HandlePc, ping: PingPc) {
    && (mutex == ByHandler <==> handle == Handling || (handle.HandleExit? && handle.how == Crashed))
    && (mutex == ByPing <==> ping == Writing)
  }

  ghost predicate Reasons(s: State) {
    && (s.reason == Eof ==> s.scan.ScanExit? && (s.scan.cause == SawEof || (s.scan.cause == SawError && s.gone)))
    && (s.reason == Done ==> s.doneCalled || (s.scan.ScanExit? && s.scan.cause == SawDone))
    && (s.scan.ScanExit? && s.scan.cause != SawStop && s.scan.cause != Panicked ==> s.reason != Unset)
  }

  /** A callback that called Done is the last one. */
  ghost predicate LastCall(handle: HandlePc, stopped: bool, doneCalled: bool) {
    doneCalled ==> (handle == Handling && stopped) || (handle.HandleExit? && handle.how != Drained)
  }

  ghost predicate Inv(s: State) {
    && LastCall(s.handle, s.stopped, s.doneCalled)
    && Conserved(Front(s), s.chan, Back(s), s.taken)
    && Reading(s.input, s.taken, s.scan)
    && Bounds(s) && Losses(s) && Exits(s) && Exclusion(s.mutex, s.handle, s.ping) && Reasons(s)
  }

  // ---------------------------------------------------------------- preservation

  lemma ParseKeepsConserved(s: State)
    requires Conserved(Front(s), s.chan, Back(s), s.taken) && DoneMark !in s.taken && s.lost == [] && s.scan.Parsing?
    ensures var s' := ScannerNext(s, Parse); Conserved(Front(s'), s'.chan, Back(s'), s'.taken)
  {
    var s' := ScannerNext(s, Parse);
    CarriedSnoc(s.taken, s.scan.line);
    assert Front(s') == Front(s) && s'.chan == s.chan;
    assert Back(s) == [] && Back(s') == Yield(s.scan.line);
    assert (Front(s) + s.chan) + [] == Front(s) + s.chan;
  }

  lemma ScannerMoves(s: State, step: ScanStep)
    requires Losses(s) && !step.Parse?
    ensures var s' := ScannerNext(s, step);
            s'.taken == s.taken && Front(s') == Front(s) && s'.chan + Back(s') == s.chan + Back(s)
  {
    if step.Send? && s.scan.Sending? { SendMoves(s); }
    if !step.Send? { LeaveMoves(s, step); }
  }

  lemma SendMoves(s: State)
    requires Losses(s) && s.scan.Sending?
    ensures var s' := ScannerWorks(s, Send);
            s'.taken == s.taken && Front(s') == Front(s) && s'.chan + Back(s') == s.chan + Back(s)
  {
    var s' := ScannerWorks(s, Send);
    if s' != s {
      assert Back(s) == [s.scan.payload] && Back(s') == [];
    }
  }

  lemma LeaveMoves(s: State, step: ScanStep)
    requires Losses(s)
    ensures var s' := ScannerLeaves(s, step);
            s'.taken == s.taken && s'.chan == s.chan && Front(s') == Front(s) && Back(s') == Back(s)
  {
  }

  lemma ParseKeepsReading(s: State)
    requires Reading(s.input, s.taken, s.scan) && s.scan.Parsing?
    ensures var s' := ScannerNext(s, Parse); Reading(s'.input, s'.taken, s'.scan) && s'.input == s.input
  {
    var s' := ScannerNext(s, Parse);
    assert s'.taken == s.taken + [s.scan.line] && s'.taken[|s.taken|] == s.scan.line;
  }

  lemma ScannerKeepsReading(s: State, step: ScanStep)
    requires Reading(s.input, s.taken, s.scan)
    ensures var s' := ScannerNext(s, step); Reading(s'.input, s'.taken, s'.scan) && s'.input == s.input
  {
    if step.Parse? && s.scan.Parsing? {
      ParseKeepsReading(s);
    } else {
      assert ScannerNext(s, step).taken == s.taken;
    }
  }

  lemma SameEnds(front: seq<string>, chan: seq<string>, back: seq<string>, chan': seq<string>, back': seq<string>)
    requires chan' + back' == chan + back
    ensures front + chan' + back' == front + chan + back
  {
    assert front + chan + back == front + (chan + back);
    assert front + chan' + back' == front + (chan' + back');
  }

  lemma ScannerKeepsConserved(s: State, step: ScanStep)
    requires Conserved(Front(s), s.chan, Back(s), s.taken) && Reading(s.input, s.taken, s.scan) && Losses(s)
    ensures var s' := ScannerNext(s, step); Conserved(Front(s'), s'.chan, Back(s'), s'.taken)
  {
    if step.Parse? {
      if s.scan.Parsing? { ParseKeepsConserved(s); }
    } else {
      ScannerMoves(s, step);
      var s' := ScannerNext(s, step);
      SameEnds(Front(s), s.chan, Back(s), s'.chan, Back(s'));
    }
  }

  /** The scanner touches neither the other goroutines nor what their calls left behind. */
  predicate SameOthers(s: State, s': State) {
    && s'.ping == s.ping && s'.mutex == s.mutex && s'.handle == s.handle
    && s'.stopped == s.stopped && s'.doneCalled == s.doneCalled && s'.gone == s.gone
  }

  lemma WorkKeepsOthers(s: State, step: ScanStep)
    ensures SameOthers(s, ScannerWorks(s, step))
  {
  }

  lemma LeaveKeepsOthers(s: State, step: ScanStep)
    ensures SameOthers(s, ScannerLeaves(s, step))
  {
  }

  lemma ScannerKeepsOthers(s: State, step: ScanStep)
    ensures SameOthers(s, ScannerNext(s, step))
  {
    WorkKeepsOthers(s, step);
    LeaveKeepsOthers(s, step);
  }

  lemma ScannerKeepsExits(s: State, step: ScanStep)
    requires Losses(s) && Exits(s) && Bounds(s)
    ensures var s' := ScannerNext(s, step); Losses(s') && Exits(s') && Bounds(s')
  {
    WorkKeepsExits(s, step);
    LeaveKeepsExits(s, step);
  }

  lemma WorkKeepsExits(s: State, step: ScanStep)
    requires Losses(s) && Exits(s) && Bounds(s)
    ensures var s' := ScannerWorks(s, step); Losses(s') && Exits(s') && Bounds(s')
  {
  }

  lemma LeaveKeepsExits(s: State, step: ScanStep)
    requires Losses(s) && Exits(s) && Bounds(s)
    ensures var s' := ScannerLeaves(s, step); Losses(s') && Exits(s') && Bounds(s')
  {
  }

  lemma ScannerKeepsReasons(s: State, step: ScanStep)
    requires Reasons(s)
    ensures Reasons(ScannerNext(s, step))
  {
    assert Reasons(ScannerWorks(s, step));
    assert Reasons(ScannerLeaves(s, step));
  }

  lemma HandlerMoves(s: State, step: HandleStep)
    ensures var s' := HandlerNext(s, step);
            && s'.taken == s.taken && s'.input == s.input && s'.scan == s.scan && Back(s') == Back(s)
            && Front(s') + s'.chan == Front(s) + s.chan
  {
    var s' := HandlerNext(s, step);
    if step.Receive? && s' != s {
      assert s.chan == [s.chan[0]] + s.chan[1..];
    } else {
      assert Front(s') == Front(s) && s'.chan == s.chan;
    }
  }

  lemma HandlerKeepsExits(s: State, step: HandleStep)
    requires Exits(s) && Bounds(s) && Exclusion(s.mutex, s.handle, s.ping)
    ensures var s' := HandlerNext(s, step);
            && Exits(s') && Bounds(s') && Exclusion(s'.mutex, s'.handle, s'.ping)
            && s'.lost == s.lost
  {
  }

  lemma HandlerKeepsReasons(s: State, step: HandleStep)
    requires Reasons(s) && LastCall(s.handle, s.stopped, s.doneCalled)
    ensures var s' := HandlerNext(s, step); Reasons(s') && LastCall(s'.handle, s'.stopped, s'.doneCalled)
  {
  }

  /** The ping goroutine and main touch neither the lines nor the payloads. */
  predicate SameData(s: State, s': State) {
    s'.input == s.input && s'.taken == s.taken && s'.scan == s.scan && s'.lost == s.lost && s'.chan == s.chan
    && s'.handle == s.handle && s'.delivered == s.delivered && s'.doneCalled == s.doneCalled && s'.stopped == s.stopped
  }

  lemma PingKeeps(s: State, step: PingStep)
    requires Bounds(s) && Exits(s) && Exclusion(s.mutex, s.handle, s.ping)
    ensures var s' := PingNext(s, step);
            SameData(s, s') && Bounds(s') && Exits(s') && Exclusion(s'.mutex, s'.handle, s'.ping)
  {
  }

  lemma PingKeepsReasons(s: State, step: PingStep)
    requires Reasons(s)
    ensures Reasons(PingNext(s, step))
  {
  }

  lemma MainKeeps(s: State, step: MainStep)
    requires Bounds(s) && Exits(s)
    ensures var s' := MainNext(s, step);
            SameData(s, s') && s'.mutex == s.mutex && s'.ping == s.ping && Bounds(s') && Exits(s')
  {
  }

  lemma MainKeepsReasons(s: State, step: MainStep)
    requires Reasons(s)
    ensures Reasons(MainNext(s, step))
  {
  }

  lemma NextKeepsInv(s: State, step: Step)
    requires Inv(s)
    ensures Inv(Next(s, step)) && Next(s, step).input == s.input
  {
    match step
    case Scanner(x) =>
      ScannerKeepsConserved(s, x);
      ScannerKeepsReading(s, x);
      ScannerKeepsExits(s, x);
      ScannerKeepsReasons(s, x);
      ScannerKeepsOthers(s, x);
    case Handler(x) =>
      HandlerMoves(s, x);
      HandlerKeepsExits(s, x);
      HandlerKeepsReasons(s, x);
    case Ping(x) =>
      PingKeeps(s, x);
      PingKeepsReasons(s, x);
    case Main(x) =>
      MainKeeps(s, x);
      MainKeepsReasons(s, x);
  }

  lemma {:induction false} RunKeepsInv(input: seq<Verdict>, steps: seq<Step>)
    ensures Inv(Run(Start(input), steps)) && Run(Start(input), steps).input == input
  {
    if steps != [] {
      RunKeepsInv(input, steps[..|steps| - 1]);
      NextKeepsInv(Run(Start(input), steps[..|steps| - 1]), steps[|steps| - 1]);
    }
  }

  // ---------------------------------------------------------------- theorems

  function Open(lines: seq<string>): State {
    Start(Verdicts(lines))
  }

  lemma FrontIsPrefix(delivered: seq<string>, held: seq<string>, chan: seq<string>, back: seq<string>)
    ensures delivered <= delivered + held + chan + back
  {
  }

  /** What a run from the lines of a body has parsed is a prefix of its verdicts, and what it
      delivered is a prefix of what those carry. */
  lemma DeliveredPrefix(lines: seq<string>, steps: seq<Step>)
    ensures var s := Run(Open(lines), steps);
            Inv(s) && s.input == Verdicts(lines)
            && Carried(s.taken) <= Payloads(lines) && s.delivered <= Payloads(lines)
            && (DoneMark in s.taken || s.taken == s.input ==> Carried(s.taken) == Payloads(lines))
  {
    var s := Run(Open(lines), steps);
    RunKeepsInv(Verdicts(lines), steps);
    var rest := s.input[|s.taken|..];
    assert s.taken + rest == s.input;
    CarriedConcat(s.taken, rest);
    FrontIsPrefix(s.delivered, Held(s.handle), s.chan, Back(s));
  }

  /** In every interleaving, what the handler saw, what waits in the channel and what the
      scanner still holds is, in order and without loss or repetition, what the parsed lines
      carry; so the handler sees a prefix of the stream's payloads, none of them an end mark. */
  lemma DeliveredInOrder(lines: seq<string>, steps: seq<Step>)
    ensures var s := Run(Open(lines), steps);
            && Front(s) + s.chan + Back(s) == Carried(s.taken)
            && s.taken <= Verdicts(lines)
            && s.delivered <= Payloads(lines)
            && |s.chan| <= 10 && s.stop <= 3
            && (forall d :: d in s.delivered ==> d != "" && d != "[DONE]")
  {
    DeliveredPrefix(lines, steps);
    PayloadsAreProper(lines);
    var s := Run(Open(lines), steps);
    forall d | d in s.delivered ensures d in Payloads(lines) {
      var i :| 0 <= i < |s.delivered| && s.delivered[i] == d;
      assert Payloads(lines)[i] == d;
    }
  }

  lemma DrainedIsAll(s: State)
    requires Conserved(Front(s), s.chan, Back(s), s.taken) && Exits(s) && Losses(s)
    requires s.handle.HandleExit? && s.handle.how == Drained
    ensures s.delivered + s.lost == Carried(s.taken)
    ensures s.lost == [] ==> s.delivered == Carried(s.taken)
  {
    assert Front(s) == s.delivered && Back(s) == s.lost;
    assert s.delivered + [] + s.lost == s.delivered + s.lost;
    assert s.delivered + [] == s.delivered;
  }

  /** When main leaves after all goroutines ended and the callback neither stopped nor
      panicked, everything sent was handled; and if the scanner reached the end mark or the
      end of the body, the handler saw the whole stream. */
  lemma CleanExitIsComplete(lines: seq<string>, steps: seq<Step>)
    requires var s := Run(Open(lines), steps);
             s.main == Left(true) && !(s.handle.HandleExit? && s.handle.how != Drained)
    ensures var s := Run(Open(lines), steps);
            && s.scan.ScanExit?
            && s.delivered + s.lost == Carried(s.taken)
            && (s.scan.cause == SawDone || s.scan.cause == SawEof ==> s.delivered == Payloads(lines))
  {
    DeliveredPrefix(lines, steps);
    DrainedIsAll(Run(Open(lines), steps));
  }

  /** The channel was drained and the stream ended for the given reason. */
  predicate DrainedTo(s: State, reason: Reason) {
    s.handle.HandleExit? && s.handle.how == Drained && s.reason == reason
  }

  /** After a drained channel, "done" means that the handler saw the whole stream, and so does
      "eof" when the client is not gone. */
  lemma ReasonTellsComplete(lines: seq<string>, steps: seq<Step>)
    requires var s := Run(Open(lines), steps); DrainedTo(s, Done) || (DrainedTo(s, Eof) && !s.gone)
    ensures Run(Open(lines), steps).delivered == Payloads(lines)
  {
    DeliveredPrefix(lines, steps);
    DrainedIsAll(Run(Open(lines), steps));
  }

  /** "eof" alone does so in every run exactly when clients cannot cancel or the body carries
      nothing: with a cancelled client a read error, too, is reported as "eof". */
  lemma EofTellsCompleteIff(lines: seq<string>, mayCancel: bool)
    ensures (forall steps :: (mayCancel || Main(Cancel) !in steps) && DrainedTo(Run(Open(lines), steps), Eof) ==>
               Run(Open(lines), steps).delivered == Payloads(lines))
       <==> (!mayCancel || Payloads(lines) == [])
  {
    if mayCancel && Payloads(lines) != [] {
      var steps := CancelledRun(Verdicts(lines));
      assert DrainedTo(Run(Open(lines), steps), Eof);
      assert Run(Open(lines), steps).delivered != Payloads(lines);
    } else {
      forall steps | (mayCancel || Main(Cancel) !in steps) && DrainedTo(Run(Open(lines), steps), Eof)
        ensures Run(Open(lines), steps).delivered == Payloads(lines)
      {
        if mayCancel {
          DeliveredPrefix(lines, steps);
        } else {
          NoCancelKeepsClient(Open(lines), steps);
          ReasonTellsComplete(lines, steps);
        }
      }
    }
  }

  lemma {:induction false} NoCancelKeepsClient(s: State, steps: seq<Step>)
    requires Main(Cancel) !in steps && !s.gone
    ensures !Run(s, steps).gone
  {
    if steps != [] {
      var before, last := steps[..|steps| - 1], steps[|steps| - 1];
      NoCancelKeepsClient(s, before);
      assert last in steps;
      OnlyCancelLosesClient(Run(s, before), last);
    }
  }

  lemma OnlyCancelLosesClient(s: State, step: Step)
    requires step != Main(Cancel)
    ensures Next(s, step).gone == s.gone
  {
    match step
    case Scanner(x) => ScannerKeepsOthers(s, x);
    case Handler(x) => assert HandlerNext(s, x).gone == s.gone;
    case Ping(x) => assert PingNext(s, x).gone == s.gone;
    case Main(x) => assert MainNext(s, x).gone == s.gone;
  }

  lemma CancelledRun(vs: seq<Verdict>) returns (steps: seq<Step>)
    ensures var s := Run(Start(vs), steps);
            s.reason == Eof && s.main == Left(true) && s.handle == HandleExit(Drained, false) && s.delivered == []
  {
    steps := FailedRead(vs);
    steps := Extend(Start(vs), steps, Ping(PingGone));
    steps := Extend(Start(vs), steps, Main(MainGone));
    steps := Extend(Start(vs), steps, Main(MainSignal));
    steps := Extend(Start(vs), steps, Main(Join));
  }

  lemma FailedRead(vs: seq<Verdict>) returns (steps: seq<Step>)
    ensures Run(Start(vs), steps)
         == Start(vs).(gone := true, reason := Eof,
                       scan := ScanExit(SawError, false), handle := HandleExit(Drained, false))
  {
    steps := [];
    steps := Extend(Start(vs), steps, Main(Cancel));
    steps := Extend(Start(vs), steps, Scanner(ScanFails));
    steps := Extend(Start(vs), steps, Handler(ReceiveClosed));
  }

  lemma Extend(s: State, steps: seq<Step>, step: Step) returns (more: seq<Step>)
    ensures Run(s, more) == Next(Run(s, steps), step)
  {
    more := steps + [step];
    assert more[..|more| - 1] == steps;
  }

  /** A step sets the reason only where there was none. */
  predicate SetOnce(s: State, s': State) {
    s.reason != Unset ==> s'.reason == s.reason
  }

  lemma ScannerSetsOnce(s: State, step: ScanStep)
    ensures SetOnce(s, ScannerNext(s, step))
  {
  }

  lemma HandlerSetsOnce(s: State, step: HandleStep)
    ensures SetOnce(s, HandlerNext(s, step))
  {
  }

  lemma ReasonStays(s: State, step: Step)
    ensures SetOnce(s, Next(s, step))
  {
    match step
    case Scanner(x) => ScannerSetsOnce(s, x);
    case Handler(x) => HandlerSetsOnce(s, x);
    case Ping(x) => assert SetOnce(s, PingNext(s, x));
    case Main(x) => assert SetOnce(s, MainNext(s, x));
  }

  /** The end reason, once set, never changes. */
  lemma {:induction false} ReasonIsFinal(s: State, steps: seq<Step>)
    requires s.reason != Unset
    ensures Run(s, steps).reason == s.reason
  {
    if steps != [] {
      ReasonIsFinal(s, steps[..|steps| - 1]);
      ReasonStays(Run(s, steps[..|steps| - 1]), steps[|steps| - 1]);
    }
  }

  // ---------------------------------------------------------------- what a reason means

  /** What must have happened for the stream to end with its reason. */
  ghost predicate Caused(s: State) {
    match s.reason
    case Unset => true
    case Done => s.doneCalled || (s.scan.ScanExit? && s.scan.cause == SawDone)
    case Timeout => s.main != Waiting
    case ClientGone => s.gone
    case Error => (s.scan.ScanExit? && s.scan.cause == Panicked) || (s.handle.HandleExit? && s.handle.how == Crashed)
    case HandlerStop => (s.handle == Handling && s.stopped) || (s.handle.HandleExit? && s.handle.how != Drained)
    case PingFail => s.ping == PingExit
    case ScannerErr => s.scan.ScanExit? && s.scan.cause == SawError
    case Eof => s.scan.ScanExit? && (s.scan.cause == SawEof || (s.scan.cause == SawError && s.gone))
  }

  /** A handler goroutine that halted was stopped by its last callback. */
  ghost predicate HaltedByCall(s: State) {
    s.handle.HandleExit? && s.handle.how == Halted ==> s.stopped
  }

  lemma WorkKeepsCause(s: State, step: ScanStep)
    requires Caused(s)
    ensures Caused(ScannerWorks(s, step))
  {
  }

  lemma ReturnKeepsCause(s: State, step: ScanStep)
    requires Caused(s) && !step.ScannerSignal?
    ensures Caused(ScannerLeaves(s, step))
  {
    var s' := ScannerLeaves(s, step);
    LeaveKeepsOthers(s, step);
    assert s'.main == s.main;
    assert s.scan.ScanExit? ==> s' == s;
  }

  lemma SignalKeepsCause(s: State)
    requires Caused(s)
    ensures Caused(ScannerLeaves(s, ScannerSignal))
  {
  }

  lemma HandlerKeepsCause(s: State, step: HandleStep)
    requires Caused(s) && HaltedByCall(s)
    ensures Caused(HandlerNext(s, step)) && HaltedByCall(HandlerNext(s, step))
  {
  }

  lemma PingKeepsCause(s: State, step: PingStep)
    requires Caused(s)
    ensures Caused(PingNext(s, step))
  {
  }

  lemma MainKeepsCause(s: State, step: MainStep)
    requires Caused(s)
    ensures Caused(MainNext(s, step))
  {
  }

  lemma NextKeepsCause(s: State, step: Step)
    requires Caused(s) && HaltedByCall(s)
    ensures Caused(Next(s, step)) && HaltedByCall(Next(s, step))
  {
    match step
    case Scanner(x) =>
      WorkKeepsCause(s, x);
      if x.ScannerSignal? { SignalKeepsCause(s); } else { ReturnKeepsCause(s, x); }
      ScannerKeepsOthers(s, x);
    case Handler(x) => HandlerKeepsCause(s, x);
    case Ping(x) =>
      PingKeepsCause(s, x);
      assert PingNext(s, x).handle == s.handle && PingNext(s, x).stopped == s.stopped;
    case Main(x) =>
      MainKeepsCause(s, x);
      assert MainNext(s, x).handle == s.handle && MainNext(s, x).stopped == s.stopped;
  }

  /** In every run the end reason is true: each one names what did happen. */
  lemma {:induction false} ReasonIsTrue(input: seq<Verdict>, steps: seq<Step>)
    ensures Caused(Run(Start(input), steps)) && HaltedByCall(Run(Start(input), steps))
  {
    if steps != [] {
      ReasonIsTrue(input, steps[..|steps| - 1]);
      NextKeepsCause(Run(Start(input), steps[..|steps| - 1]), steps[|steps| - 1]);
    }
  }

  /** Main has left its loop, the ping goroutine is gone, and a signal is left for the scanner or
      the scanner has returned. */
  predicate ShuttingDown(s: State) {
    s.main != Waiting && s.ping == PingExit && (s.stop > 0 || s.scan.ScanExit?) && !s.scan.Parsing?
  }

  lemma ScannerShutsDown(s: State, step: ScanStep)
    requires ShuttingDown(s)
    ensures ShuttingDown(ScannerNext(s, step)) && ScannerNext(s, step).taken == s.taken
  {
    WorkShutsDown(s, step);
    LeaveShutsDown(s, step);
  }

  lemma WorkShutsDown(s: State, step: ScanStep)
    requires ShuttingDown(s)
    ensures ShuttingDown(ScannerWorks(s, step)) && ScannerWorks(s, step).taken == s.taken
  {
  }

  lemma LeaveShutsDown(s: State, step: ScanStep)
    requires ShuttingDown(s)
    ensures ShuttingDown(ScannerLeaves(s, step)) && ScannerLeaves(s, step).taken == s.taken
  {
  }

  lemma NextShutsDown(s: State, step: Step)
    requires ShuttingDown(s)
    ensures ShuttingDown(Next(s, step)) && Next(s, step).taken == s.taken
  {
    match step
    case Scanner(x) => ScannerShutsDown(s, x);
    case Handler(x) => assert ShuttingDown(HandlerNext(s, x)) && HandlerNext(s, x).taken == s.taken;
    case Ping(x) => assert PingNext(s, x) == s;
    case Main(x) => assert ShuttingDown(MainNext(s, x)) && MainNext(s, x).taken == s.taken;
  }

  /** In the shutdown, with a signal left that only the scanner can take, it parses at most the
      line it was about to parse. */
  lemma {:induction false} NothingReadInShutdown(s: State, steps: seq<Step>)
    requires ShuttingDown(s)
    ensures ShuttingDown(Run(s, steps)) && Run(s, steps).taken == s.taken
  {
    if steps != [] {
      NothingReadInShutdown(s, steps[..|steps| - 1]);
      NextShutsDown(Run(s, steps[..|steps| - 1]), steps[|steps| - 1]);
    }
  }

  /** The stream is not blamed on a failing read or ping. */
  predicate Unblamed(s: State) {
    s.gone && s.reason != PingFail && s.reason != ScannerErr
  }

  lemma GoneKeepsUnblamed(s: State, step: Step)
    requires Unblamed(s)
    ensures Unblamed(Next(s, step))
  {
    match step
    case Scanner(x) =>
      ScannerKeepsOthers(s, x);
      ScannerBlamesNone(s, x);
    case Handler(x) => assert Unblamed(HandlerNext(s, x));
    case Ping(x) => assert Unblamed(PingNext(s, x));
    case Main(x) => assert Unblamed(MainNext(s, x));
  }

  lemma ScannerBlamesNone(s: State, step: ScanStep)
    requires Unblamed(s)
    ensures ScannerNext(s, step).reason != PingFail && ScannerNext(s, step).reason != ScannerErr
  {
    assert ScannerWorks(s, step).reason != PingFail && ScannerWorks(s, step).reason != ScannerErr;
    assert ScannerLeaves(s, step).reason != PingFail && ScannerLeaves(s, step).reason != ScannerErr;
  }

  /** Once the client is gone, failing reads and pings are no longer a reason. */
  lemma {:induction false} NoBlameOnceGone(s: State, steps: seq<Step>)
    requires Unblamed(s)
    ensures Unblamed(Run(s, steps))
  {
    if steps != [] {
      NoBlameOnceGone(s, steps[..|steps| - 1]);
      GoneKeepsUnblamed(Run(s, steps[..|steps| - 1]), steps[|steps| - 1]);
    }
  }

  // ---------------------------------------------------------------- signals

  /** The scanner panicked and has not recovered yet; its data channel is closed already. */
  predicate Panicking(s: State) {
    s.scan.ScanExit? && s.scan.cause == Panicked && !s.scan.signalled
  }

  /** While the stream has no end reason nothing has ended and no signal was sent, unless the
      scanner is panicking. */
  ghost predicate Silent(s: State) {
    s.reason == Unset && !Panicking(s) ==>
      && s.stop == 0 && s.main == Waiting && !s.scan.ScanExit?
      && (s.handle.Locking? || s.handle == Handling ==> !s.stopped)
      && (s.handle.HandleExit? ==> s.handle.how == Crashed && !s.handle.signalled)
  }

  lemma WorkKeepsSilent(s: State, step: ScanStep)
    requires Silent(s)
    ensures Silent(ScannerWorks(s, step))
  {
  }

  lemma LeaveKeepsSilent(s: State, step: ScanStep)
    requires Silent(s)
    ensures Silent(ScannerLeaves(s, step))
  {
  }

  lemma HandlerKeepsSilent(s: State, step: HandleStep)
    requires Silent(s)
    ensures Silent(HandlerNext(s, step))
  {
  }

  lemma PingKeepsSilent(s: State, step: PingStep)
    requires Silent(s)
    ensures Silent(PingNext(s, step))
  {
  }

  lemma MainKeepsSilent(s: State, step: MainStep)
    requires Silent(s)
    ensures Silent(MainNext(s, step))
  {
  }

  /** Whoever ends the stream says why before it signals: in every run, a signal, a main loop
      that was left or a goroutine that returned comes with an end reason, unless the scanner is
      panicking. */
  lemma {:induction false} ReasonBeforeSignal(input: seq<Verdict>, steps: seq<Step>)
    ensures Silent(Run(Start(input), steps))
  {
    if steps != [] {
      var s, step := Run(Start(input), steps[..|steps| - 1]), steps[|steps| - 1];
      ReasonBeforeSignal(input, steps[..|steps| - 1]);
      match step
      case Scanner(x) =>
        WorkKeepsSilent(s, x);
        LeaveKeepsSilent(s, x);
      case Handler(x) => HandlerKeepsSilent(s, x);
      case Ping(x) => PingKeepsSilent(s, x);
      case Main(x) => MainKeepsSilent(s, x);
    }
  }

  function One(b: bool): nat {
    if b then 1 else 0
  }

  /** Goroutines that may have sent a signal; each sends one. */
  function Senders(s: State): nat {
    One(s.scan.ScanExit? && s.scan.signalled) + One(s.handle.HandleExit? && s.handle.signalled)
    + One(s.main != Waiting && s.main != Stopping) + One(s.ping == PingExit)
  }

  /** Signals that were sent: those that wait and the one that stopped the scanner. */
  ghost predicate SignalsSent(s: State) {
    s.stop + One(s.scan.ScanExit? && s.scan.cause == SawStop) <= Senders(s)
  }

  lemma WorkKeepsSignals(s: State, step: ScanStep)
    requires SignalsSent(s)
    ensures SignalsSent(ScannerWorks(s, step))
  {
    var s' := ScannerWorks(s, step);
    WorkKeepsOthers(s, step);
    assert s'.stop == s.stop && s'.main == s.main;
    assert s'.scan.ScanExit? ==> s'.scan == s.scan || s'.scan == ScanExit(SawDone, false);
    if s'.scan.ScanExit? && s.scan != s'.scan { assert !s.scan.ScanExit?; }
  }

  lemma LeaveKeepsSignals(s: State, step: ScanStep)
    requires SignalsSent(s)
    ensures SignalsSent(ScannerLeaves(s, step))
  {
  }

  lemma HandlerKeepsSignals(s: State, step: HandleStep)
    requires SignalsSent(s)
    ensures SignalsSent(HandlerNext(s, step))
  {
  }

  lemma PingKeepsSignals(s: State, step: PingStep)
    requires SignalsSent(s)
    ensures SignalsSent(PingNext(s, step))
  {
  }

  lemma MainKeepsSignals(s: State, step: MainStep)
    requires SignalsSent(s)
    ensures SignalsSent(MainNext(s, step))
  {
  }

  /** No signal comes from nowhere, and one that the scanner took is gone for the others. */
  lemma {:induction false} SignalsAreSent(input: seq<Verdict>, steps: seq<Step>)
    ensures SignalsSent(Run(Start(input), steps))
  {
    if steps != [] {
      var s, step := Run(Start(input), steps[..|steps| - 1]), steps[|steps| - 1];
      SignalsAreSent(input, steps[..|steps| - 1]);
      match step
      case Scanner(x) =>
        WorkKeepsSignals(s, x);
        LeaveKeepsSignals(s, x);
      case Handler(x) => HandlerKeepsSignals(s, x);
      case Ping(x) => PingKeepsSignals(s, x);
      case Main(x) => MainKeepsSignals(s, x);
    }
  }

  /** A goroutine that ends the stream leaves a signal behind, also when the channel is full. */
  lemma EndsWithSignal(s: State)
    ensures s.scan.ScanExit? && !s.scan.signalled ==> Next(s, Scanner(ScannerSignal)).stop > 0
    ensures s.handle.HandleExit? && !s.handle.signalled ==> Next(s, Handler(HandlerSignal)).stop > 0
    ensures s.ping == Writing && !s.gone ==> Next(s, Ping(PingWrite(false))).stop > 0
    ensures s.main == Stopping ==> Next(s, Main(MainSignal)).stop > 0
  {
  }

  // ---------------------------------------------------------------- stopping

  /** The callback stopped the stream, or the handler goroutine has returned. */
  predicate HandlerDone(s: State) {
    s.handle.HandleExit? || (s.handle == Handling && s.stopped)
  }

  lemma HandlerStaysDone(s: State, step: Step)
    requires HandlerDone(s)
    ensures HandlerDone(Next(s, step)) && Next(s, step).delivered == s.delivered
  {
    match step
    case Scanner(x) =>
      ScannerKeepsOthers(s, x);
      ScannerDelivers(s, x);
    case Handler(x) => assert HandlerDone(HandlerNext(s, x)) && HandlerNext(s, x).delivered == s.delivered;
    case Ping(x) => assert SameHandler(s, PingNext(s, x));
    case Main(x) => assert SameHandler(s, MainNext(s, x));
  }

  predicate SameHandler(s: State, s': State) {
    s'.handle == s.handle && s'.stopped == s.stopped && s'.delivered == s.delivered
  }

  lemma ScannerDelivers(s: State, step: ScanStep)
    ensures ScannerNext(s, step).delivered == s.delivered
  {
  }

  /** Once a callback has called Stop or Done, nothing more is delivered. */
  lemma {:induction false} NothingAfterStop(s: State, stop: HandleStep, steps: seq<Step>)
    requires s.handle == Handling && (stop == CallStop || stop == CallDone)
    ensures Run(Next(s, Handler(stop)), steps).delivered == s.delivered
    ensures HandlerDone(Run(Next(s, Handler(stop)), steps))
  {
    if steps != [] {
      var before := Run(Next(s, Handler(stop)), steps[..|steps| - 1]);
      NothingAfterStop(s, stop, steps[..|steps| - 1]);
      HandlerStaysDone(before, steps[|steps| - 1]);
    }
  }

  lemma GoneStays(s: State, step: Step)
    requires s.gone && !s.scan.Parsing?
    ensures var s' := Next(s, step); s'.gone && !s'.scan.Parsing? && s'.taken == s.taken
  {
    match step
    case Scanner(x) => GoneStopsScanner(s, x);
    case Handler(x) => assert SameScan(s, HandlerNext(s, x));
    case Ping(x) => assert SameScan(s, PingNext(s, x));
    case Main(x) => assert SameScan(s, MainNext(s, x));
  }

  predicate SameScan(s: State, s': State) {
    s'.scan == s.scan && s'.taken == s.taken && (s.gone ==> s'.gone)
  }

  lemma GoneStopsScanner(s: State, step: ScanStep)
    requires s.gone && !s.scan.Parsing?
    ensures var s' := ScannerNext(s, step); s'.gone && !s'.scan.Parsing? && s'.taken == s.taken
  {
    ScannerKeepsOthers(s, step);
    assert !ScannerWorks(s, step).scan.Parsing? && ScannerWorks(s, step).taken == s.taken;
    assert !ScannerLeaves(s, step).scan.Parsing? && ScannerLeaves(s, step).taken == s.taken;
  }

  /** Once the client is gone the scanner parses at most the line it was about to parse. */
  lemma {:induction false} NothingReadOnceGone(s: State, steps: seq<Step>)
    requires s.gone && !s.scan.Parsing?
    ensures var s' := Run(s, steps); s'.gone && !s'.scan.Parsing? && s'.taken == s.taken
  {
    if steps != [] {
      NothingReadOnceGone(s, steps[..|steps| - 1]);
      GoneStays(Run(s, steps[..|steps| - 1]), steps[|steps| - 1]);
    }
  }

  /** The callback and a ping never write to the client at the same time, and after a
      panicking callback no ping is written. */
  lemma WritesExclude(lines: seq<string>, steps: seq<Step>)
    ensures var s := Run(Open(lines), steps);
            s.ping == Writing ==> s.handle != Handling && !(s.handle.HandleExit? && s.handle.how == Crashed)
  {
    RunKeepsInv(Verdicts(lines), steps);
  }
}
