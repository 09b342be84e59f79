/**
 The link to the codec board (pcm_stream.c, codec main.c): every transfer carries a request one way and,
 the other way, the answer to an earlier request. Transfers may fail or be garbled in either
 direction; a garbled frame is always recognised by its checksum. PCM blocks and encoded frames are
 opaque values, and the encoder is an arbitrary deterministic function of its state and a block.
 */
module CodecLink {
  import opened Words

  const QueueFrames := 4

  /** The encoder: its next state, and a frame unless it reports an error. */
  datatype Codec = Codec(start: int, encode: (int, int) -> (int, Option<int>))

  datatype Request = Request(session: Word, play: bool, pcm: int)

  datatype Response = Response(session: Word, num: Word, status: nat, play: bool, frame: int)

  const Ok := 0
  const BadWire := 1
  const EncodeError := 2
  const NotReady := 8

  // --------------------------------------------------------------------------
  // The codec board
  // --------------------------------------------------------------------------

  /** `tx` goes out with the next transfer; `cached` answers a repeated request. */
  datatype Board = Board(tx: Response, cached: Response, haveCached: bool, lastSession: Word, lastSeq: Word, encoder: int)

  function Boot(c: Codec): Board {
    Board(Response(0, 0, NotReady, false, 0), Response(0, 0, NotReady, false, 0), false, 0, 0, c.start)
  }

  predicate Repeats(b: Board, session: Word, num: Word) {
    b.haveCached && session == b.lastSession && num == b.lastSeq
  }

  /** A frame with a bad checksum or header is reported; nothing else changes. */
  function ProcessGarbled(b: Board, session: Word, num: Word): Board {
    b.(tx := Response(session, num, BadWire, false, 0))
  }

  function Answer(c: Codec, b: Board, r: Request, num: Word): (Response, int) {
    if !r.play then (Response(r.session, num, Ok, false, 0), b.encoder)
    else
      var (next, frame) := c.encode(b.encoder, r.pcm);
      (if frame.Some? then Response(r.session, num, Ok, true, frame.value) else Response(r.session, num, EncodeError, false, 0), next)
  }

  function Process(c: Codec, b: Board, r: Request, num: Word): Board {
    if Repeats(b, r.session, num) then b.(tx := b.cached)
    else
      var (tx, encoder) := Answer(c, b, r, num);
      Board(tx, tx, true, r.session, num, encoder)
  }

  /** What the board gets to see of a transfer. */
  datatype Heard = Nothing | Garbled(session: Word, num: Word) | Whole

  // --------------------------------------------------------------------------
  // The worker
  // --------------------------------------------------------------------------

  datatype Worker = Worker(
    base: Word, epoch: Word, num: Word, previousSession: Word, previousSeq: Word, havePrevious: bool, ready: bool)

  /**
   The whole link. `sent` are all requests, `done` the play requests the board encoded with its results,
   `pushed` the frames that entered the audio queue with the number of their request, `queued` their current count.
   Requests are numbered from one; `previous`, `last` are the numbers behind previousSeq and lastSeq.
   */
  datatype Done = Done(number: nat, pcm: int, frame: Option<int>)
  datatype Link = Link(
    w: Worker, b: Board, queued: nat, drops: nat,
    sent: seq<Request>, done: seq<Done>, pushed: seq<(nat, int)>, previous: nat, last: nat)

  function Start(c: Codec, base: Word): Link {
    Link(Worker(base, 0, 0, 0, 0, false, false), Boot(c), 0, 0, [], [], [], 0, 0)
  }

  function Session(w: Worker): Word {
    Add32(w.base, w.epoch)
  }

  /**
   One transfer: what the board hears, whether the worker's side completes, whether the frame it receives is
   whole, and whether a new radio session begins meanwhile.
   */
  datatype Wire = Wire(heard: Heard, completed: bool, intact: bool, newSession: bool)

  function BoardHears(c: Codec, s: Link, r: Request, num: Word, heard: Heard): Link {
    match heard
    case Nothing => s
    case Garbled(session, q) => s.(b := ProcessGarbled(s.b, session, q))
    case Whole =>
      var first := !Repeats(s.b, r.session, num);
      s.(b := Process(c, s.b, r, num),
         last := if first then |s.sent| else s.last,
         done := if first && r.play then s.done + [Done(|s.sent|, r.pcm, c.encode(s.b.encoder, r.pcm).1)] else s.done)
  }

  /** The worker believes the answer: it is for the previous request, in the current session. */
  predicate Believed(w: Worker, rx: Response) {
    w.havePrevious && rx.session == w.previousSession && rx.num == w.previousSeq && w.previousSession == Session(w)
  }

  function Push(s: Link, number: nat, frame: int): Link {
    if s.queued >= QueueFrames then s.(drops := s.drops + 1)
    else s.(queued := s.queued + 1, pushed := s.pushed + [(number, frame)])
  }

  /** Take the answer that came with this transfer (accept_response). */
  function Accept(s: Link, rx: Response, whole: bool): Link {
    if whole && Believed(s.w, rx) && rx.play then Push(s, s.previous, rx.frame) else s
  }

  function Remember(s: Link, session: Word): Link {
    s.(w := s.w.(previousSession := session, previousSeq := s.w.num, havePrevious := true), previous := |s.sent|)
  }

  function Send(s: Link, r: Request): Link {
    s.(sent := s.sent + [r], w := s.w.(num := Add32(s.w.num, 1)))
  }

  function Bump(s: Link, begin: bool): Link {
    if begin then s.(w := s.w.(epoch := Add32(s.w.epoch, 1))) else s
  }

  /** A transfer with a request: the answer in it is what the board had prepared before. */
  function Exchange(c: Codec, s: Link, r: Request, x: Wire): Link {
    var t := Send(s, r);
    var rx := t.b.tx;
    var u := Bump(BoardHears(c, t, r, t.w.num, x.heard), x.newSession);
    if !x.completed then u else Remember(Accept(u, rx, x.intact && !x.heard.Nothing?), r.session)
  }

  function Quiet(x: Wire): Wire {
    x.(newSession := false)
  }

  /** Until the board answers, empty requests are sent; the answer is judged by the session at their start. */
  function Probe(c: Codec, s: Link, x: Wire): Link {
    var rx := s.b.tx;
    var ok := x.completed && x.intact && !x.heard.Nothing? && Believed(s.w, rx) && rx.status == Ok;
    var t := Exchange(c, s, Request(Session(s.w), false, 0), Quiet(x));
    Bump(t.(w := t.w.(ready := ok)), x.newSession)
  }

  /** Afterwards a play request is made only while fewer than three frames are seen in the queue. */
  function Cycle(c: Codec, s: Link, play: bool, pcm: int, x: Wire): Link {
    var t := Exchange(c, s, Request(Session(s.w), play, if play then pcm else 0), x);
    if x.completed then t else t.(w := t.w.(ready := false, havePrevious := false))
  }

  datatype Action =
    | Turn(play: bool, pcm: int, seen: nat, wire: Wire)
    | NewSession
    | Consumed
    | Parked
    | Rearmed

  function Step(c: Codec, s: Link, a: Action): Link {
    match a
    case Turn(play, pcm, seen, wire) =>
      if !s.w.ready then Probe(c, s, wire)
      else if seen < s.queued then s
      else Cycle(c, s, play && seen < QueueFrames - 1, pcm, wire)
    case NewSession => Bump(s, true)
    case Consumed => if s.queued > 0 then s.(queued := s.queued - 1) else s
    case Parked => s.(w := s.w.(havePrevious := false))
    case Rearmed => s.(queued := 0)
  }

  function Run(c: Codec, s: Link, actions: seq<Action>): Link {
    if actions == [] then s else Step(c, Run(c, s, actions[..|actions| - 1]), actions[|actions| - 1])
  }

  // --------------------------------------------------------------------------
  // What every step keeps
  // --------------------------------------------------------------------------

  /** The next request does not repeat a 32-bit number: fewer than 2^32 requests since the remembered ones. */
  predicate Recent(s: Link) {
    (s.b.haveCached ==> |s.sent| + 1 < s.last + U32) && (s.w.havePrevious ==> |s.sent| + 1 < s.previous + U32)
  }

  predicate AllRecent(c: Codec, s: Link, actions: seq<Action>) {
    actions == [] ||
    (AllRecent(c, s, actions[..|actions| - 1]) && Recent(Run(c, s, actions[..|actions| - 1])))
  }

  function EncoderAfter(c: Codec, done: seq<Done>): int {
    if done == [] then c.start
    else c.encode(EncoderAfter(c, done[..|done| - 1]), done[|done| - 1].pcm).0
  }

  /** Every result is the encoder's, run over exactly the recorded blocks in order. */
  predicate Encoded(c: Codec, done: seq<Done>) {
    done == [] ||
    (Encoded(c, done[..|done| - 1]) &&
     done[|done| - 1].frame == c.encode(EncoderAfter(c, done[..|done| - 1]), done[|done| - 1].pcm).1)
  }

  predicate SentOk(sent: seq<Request>, done: seq<Done>) {
    forall i :: 0 <= i < |done| ==> 1 <= done[i].number <= |sent| && sent[done[i].number - 1].play && sent[done[i].number - 1].pcm == done[i].pcm
  }

  predicate DoneRising(done: seq<Done>) {
    forall i, j :: 0 <= i < j < |done| ==> done[i].number < done[j].number
  }

  predicate PushedRising(pushed: seq<(nat, int)>) {
    forall i, j :: 0 <= i < j < |pushed| ==> pushed[i].0 < pushed[j].0
  }

  predicate PushedBelow(pushed: seq<(nat, int)>, n: nat) {
    forall i :: 0 <= i < |pushed| ==> pushed[i].0 < n
  }

  predicate Result(done: seq<Done>, number: nat, frame: int) {
    exists k :: 0 <= k < |done| && done[k].number == number && done[k].frame == Some(frame)
  }

  predicate PushedOk(pushed: seq<(nat, int)>, done: seq<Done>) {
    forall i :: 0 <= i < |pushed| ==> Result(done, pushed[i].0, pushed[i].1)
  }

  /** The board's record of the request it last worked on, and what its answers carry. */
  predicate BoardInv(c: Codec, b: Board, sent: seq<Request>, done: seq<Done>, last: nat) {
    b.encoder == EncoderAfter(c, done) && last <= |sent| &&
    (b.haveCached ==> 1 <= last && b.lastSeq == Wrap(last) && b.lastSession == sent[last - 1].session) &&
    (b.tx.play ==> b.haveCached && b.tx.num == b.lastSeq && sent[last - 1].play && Result(done, last, b.tx.frame)) &&
    (b.cached.play ==> b.haveCached && b.cached.num == b.lastSeq && sent[last - 1].play && Result(done, last, b.cached.frame)) &&
    (forall i :: 0 <= i < |done| ==> done[i].number <= last)
  }

  predicate WorkerInv(w: Worker, sent: seq<Request>, previous: nat) {
    w.num == Wrap(|sent|) && previous <= |sent| &&
    (w.havePrevious ==> 1 <= previous && w.previousSeq == Wrap(previous) && (!w.ready ==> !sent[previous - 1].play))
  }

  /** A play request whose answer may still come. */
  function Pending(w: Worker, sent: seq<Request>, previous: nat): nat {
    if w.havePrevious && 1 <= previous <= |sent| && sent[previous - 1].play then 1 else 0
  }

  /** What entered the queue, in which order, and that it always fitted. */
  predicate QueueInv(s: Link) {
    PushedRising(s.pushed) && PushedBelow(s.pushed, if s.w.havePrevious then s.previous else |s.sent| + 1) &&
    PushedOk(s.pushed, s.done) && s.queued + Pending(s.w, s.sent, s.previous) <= QueueFrames && s.drops == 0
  }

  predicate Inv(c: Codec, s: Link) {
    WorkerInv(s.w, s.sent, s.previous) && BoardInv(c, s.b, s.sent, s.done, s.last) &&
    Encoded(c, s.done) && SentOk(s.sent, s.done) && DoneRising(s.done) && QueueInv(s)
  }

  lemma Apart(a: nat, b: nat)
    requires Wrap(a) == Wrap(b) && a < b + U32 && b < a + U32
    ensures a == b
  {
    if a >= b { WrappedDifference(a, b); } else { WrappedDifference(b, a); }
  }

  lemma ResultStays(done: seq<Done>, d: Done, number: nat, frame: int)
    requires Result(done, number, frame)
    ensures Result(done + [d], number, frame)
  {
    var k :| 0 <= k < |done| && done[k].number == number && done[k].frame == Some(frame);
    assert (done + [d])[k] == done[k];
  }

  lemma PushedStays(pushed: seq<(nat, int)>, done: seq<Done>, d: Done)
    requires PushedOk(pushed, done)
    ensures PushedOk(pushed, done + [d])
  {
    forall i | 0 <= i < |pushed| ensures Result(done + [d], pushed[i].0, pushed[i].1) {
      ResultStays(done, d, pushed[i].0, pushed[i].1);
    }
    hide Result;
  }

  lemma SentGrows(sent: seq<Request>, done: seq<Done>, r: Request)
    requires SentOk(sent, done)
    ensures SentOk(sent + [r], done)
  {
  }

  lemma BoardWaits(c: Codec, b: Board, sent: seq<Request>, done: seq<Done>, last: nat, r: Request)
    requires BoardInv(c, b, sent, done, last)
    ensures BoardInv(c, b, sent + [r], done, last)
  {
    hide Result, EncoderAfter, Wrap;
  }

  lemma DoneGrows(c: Codec, b: Board, sent: seq<Request>, done: seq<Done>, r: Request, pushed: seq<(nat, int)>)
    requires b.encoder == EncoderAfter(c, done) && Encoded(c, done) && SentOk(sent, done) && DoneRising(done) && r.play
    requires PushedOk(pushed, done)
    ensures var more := done + [Done(|sent| + 1, r.pcm, c.encode(b.encoder, r.pcm).1)];
      Encoded(c, more) && SentOk(sent + [r], more) && DoneRising(more) && PushedOk(pushed, more) &&
      EncoderAfter(c, more) == c.encode(b.encoder, r.pcm).0
  {
    var d := Done(|sent| + 1, r.pcm, c.encode(b.encoder, r.pcm).1);
    var more := done + [d];
    assert more[..|done|] == done && more[|done|] == d;
    PushedStays(pushed, done, d);
    hide PushedOk;
  }

  /** The board works on a play request it has not seen. */
  lemma PlayKeeps(c: Codec, b: Board, sent: seq<Request>, done: seq<Done>, last: nat, r: Request, pushed: seq<(nat, int)>)
    requires BoardInv(c, b, sent, done, last) && Encoded(c, done) && SentOk(sent, done) && DoneRising(done) && r.play
    requires PushedOk(pushed, done) && !Repeats(b, r.session, Wrap(|sent| + 1))
    ensures var n := |sent| + 1; var more := done + [Done(n, r.pcm, c.encode(b.encoder, r.pcm).1)];
      BoardInv(c, Process(c, b, r, Wrap(n)), sent + [r], more, n) && Encoded(c, more) && SentOk(sent + [r], more) &&
      DoneRising(more) && PushedOk(pushed, more)
  {
    var n := |sent| + 1;
    var d := Done(n, r.pcm, c.encode(b.encoder, r.pcm).1);
    var more := done + [d];
    DoneGrows(c, b, sent, done, r, pushed);
    assert more[|done|] == d;
    hide Wrap, PushedOk, Encoded, EncoderAfter, SentOk, DoneRising;
    if d.frame.Some? { assert Result(more, n, d.frame.value); }
    hide Result;
  }

  lemma PlainKeeps(c: Codec, b: Board, sent: seq<Request>, done: seq<Done>, last: nat, r: Request)
    requires BoardInv(c, b, sent, done, last) && !r.play && !Repeats(b, r.session, Wrap(|sent| + 1))
    ensures BoardInv(c, Process(c, b, r, Wrap(|sent| + 1)), sent + [r], done, |sent| + 1)
  {
    hide Wrap, Result, EncoderAfter;
  }

  lemma GarbledKeeps(c: Codec, b: Board, sent: seq<Request>, done: seq<Done>, last: nat, session: Word, num: Word)
    requires BoardInv(c, b, sent, done, last)
    ensures BoardInv(c, ProcessGarbled(b, session, num), sent, done, last)
  {
    hide Wrap, Result, EncoderAfter;
  }

  /** The next number is not the board's last one. */
  lemma NotRepeated(c: Codec, s: Link, session: Word)
    requires BoardInv(c, s.b, s.sent, s.done, s.last) && Recent(s)
    ensures !Repeats(s.b, session, Wrap(|s.sent| + 1))
  {
    if Repeats(s.b, session, Wrap(|s.sent| + 1)) { Apart(s.last, |s.sent| + 1); }
    hide Wrap;
  }

  /** The records that hearing a request may change. */
  predicate RecordsOk(c: Codec, s: Link) {
    BoardInv(c, s.b, s.sent, s.done, s.last) && Encoded(c, s.done) && SentOk(s.sent, s.done) && DoneRising(s.done) &&
    PushedOk(s.pushed, s.done)
  }

  lemma SendKeeps(c: Codec, s: Link, r: Request)
    requires Inv(c, s)
    ensures RecordsOk(c, Send(s, r)) && Send(s, r).w.num == Wrap(|s.sent| + 1)
  {
    WrappedSum(|s.sent|, 1);
    SentGrows(s.sent, s.done, r);
    BoardWaits(c, s.b, s.sent, s.done, s.last, r);
    hide Wrap, PushedOk, Encoded, SentOk, DoneRising, BoardInv;
  }

  lemma WholeKeeps(c: Codec, s: Link, r: Request)
    requires Inv(c, s) && Recent(s)
    ensures var t := Send(s, r); var u := BoardHears(c, t, r, Wrap(|s.sent| + 1), Whole);
      RecordsOk(c, u) && u == t.(b := u.b, done := u.done, last := u.last)
  {
    NotRepeated(c, s, r.session);
    assert PushedOk(s.pushed, s.done);
    if r.play {
      PlayKeeps(c, s.b, s.sent, s.done, s.last, r, s.pushed);
    } else {
      PlainKeeps(c, s.b, s.sent, s.done, s.last, r);
      SentGrows(s.sent, s.done, r);
    }
    hide Wrap, Result, EncoderAfter, Encoded, PushedOk, SentOk, DoneRising, Repeats, Process, QueueInv, Recent, WorkerInv, BoardInv;
  }

  /** The board, for one request of which it may hear something: its records stay right. */
  lemma HearsKeeps(c: Codec, s: Link, r: Request, heard: Heard)
    requires Inv(c, s) && Recent(s)
    ensures var t := Send(s, r); var u := BoardHears(c, t, r, t.w.num, heard);
      RecordsOk(c, u) && u == t.(b := u.b, done := u.done, last := u.last) && t.w.num == Wrap(|s.sent| + 1)
  {
    SendKeeps(c, s, r);
    var t := Send(s, r);
    match heard
    case Nothing => hide RecordsOk;
    case Garbled(session, num) =>
      GarbledKeeps(c, t.b, t.sent, t.done, t.last, session, num);
      hide BoardInv, Encoded, PushedOk, SentOk, DoneRising;
    case Whole =>
      hide RecordsOk, BoardHears, Send;
      WholeKeeps(c, s, r);
  }

  lemma PushedMore(pushed: seq<(nat, int)>, n: nat, frame: int, bound: nat)
    requires PushedRising(pushed) && PushedBelow(pushed, n) && n < bound
    ensures PushedRising(pushed + [(n, frame)]) && PushedBelow(pushed + [(n, frame)], bound)
  {
  }

  lemma BelowMore(pushed: seq<(nat, int)>, n: nat, bound: nat)
    requires PushedBelow(pushed, n) && n <= bound
    ensures PushedBelow(pushed, bound)
  {
  }

  /** A believed answer with a frame answers exactly the previous request. */
  lemma BelievedIsPrevious(c: Codec, s: Link)
    requires Inv(c, s) && Recent(s) && s.b.tx.play && s.w.havePrevious && s.b.tx.num == s.w.previousSeq
    ensures s.previous == s.last && s.sent[s.previous - 1].play && Result(s.done, s.previous, s.b.tx.frame) && s.w.ready
  {
    Apart(s.previous, s.last);
    hide Wrap, Result, EncoderAfter, Encoded, PushedOk, SentOk, DoneRising, PushedRising, PushedBelow;
  }

  /** Taking the answer never overflows the queue and keeps the log in order. */
  lemma AcceptKeeps(c: Codec, s: Link, u: Link, whole: bool)
    requires Inv(c, s) && Recent(s) && PushedOk(s.pushed, u.done) && (forall f :: Result(s.done, s.previous, f) ==> Result(u.done, s.previous, f))
    requires u.w.havePrevious == s.w.havePrevious && u.w.previousSession == s.w.previousSession && u.w.previousSeq == s.w.previousSeq
    requires u.queued == s.queued && u.drops == 0 && u.pushed == s.pushed && u.previous == s.previous && |u.sent| == |s.sent| + 1
    ensures var t := Accept(u, s.b.tx, whole);
      t == u.(queued := t.queued, pushed := t.pushed) && PushedRising(t.pushed) && PushedBelow(t.pushed, |u.sent|) &&
      PushedOk(t.pushed, t.done) && t.queued <= s.queued + Pending(s.w, s.sent, s.previous)
  {
    BelowMore(s.pushed, if s.w.havePrevious then s.previous else |s.sent| + 1, |u.sent|);
    if whole && Believed(u.w, s.b.tx) && s.b.tx.play {
      BelievedIsPrevious(c, s);
      PushedMore(s.pushed, s.previous, s.b.tx.frame, |u.sent|);
      assert s.queued < QueueFrames;
      assert Result(u.done, s.previous, s.b.tx.frame);
    }
    hide Result, EncoderAfter, Encoded, SentOk, DoneRising, PushedRising, PushedBelow, BoardInv;
  }

  lemma ExchangeKeeps(c: Codec, s: Link, r: Request, x: Wire)
    requires Inv(c, s) && Recent(s) && (r.play ==> s.queued < QueueFrames - 1 && s.w.ready)
    ensures var t := Exchange(c, s, r, x);
      BoardInv(c, t.b, t.sent, t.done, t.last) && Encoded(c, t.done) && SentOk(t.sent, t.done) && DoneRising(t.done) &&
      PushedRising(t.pushed) && PushedOk(t.pushed, t.done) && t.drops == 0 && t.w.num == Wrap(|t.sent|) &&
      t.sent == s.sent + [r] && t.w.ready == s.w.ready &&
      (if x.completed then
         t.w.havePrevious && t.previous == |t.sent| && t.w.previousSeq == t.w.num && PushedBelow(t.pushed, t.previous) &&
         t.queued + (if r.play then 1 else 0) <= QueueFrames
       else t.pushed == s.pushed && t.queued == s.queued && t.previous == s.previous && t.w.havePrevious == s.w.havePrevious &&
            t.w.previousSeq == s.w.previousSeq)
  {
    HearsKeeps(c, s, r, x.heard);
    var t := Send(s, r);
    var u := BoardHears(c, t, r, t.w.num, x.heard);
    var v := Bump(u, x.newSession);
    forall f | Result(s.done, s.previous, f) ensures Result(u.done, s.previous, f) {
      if u.done != s.done { ResultStays(s.done, u.done[|s.done|], s.previous, f); }
    }
    if x.completed { AcceptKeeps(c, s, v, x.intact && !x.heard.Nothing?); }
    hide Wrap, Result, EncoderAfter, Encoded, PushedOk, SentOk, DoneRising, PushedRising, PushedBelow, BoardInv, BoardHears, Accept;
  }

  lemma ProbeKeeps(c: Codec, s: Link, x: Wire)
    requires Inv(c, s) && Recent(s) && !s.w.ready
    ensures Inv(c, Probe(c, s, x))
  {
    var r := Request(Session(s.w), false, 0);
    ExchangeKeeps(c, s, r, Quiet(x));
    BelowMore(s.pushed, if s.w.havePrevious then s.previous else |s.sent| + 1, |s.sent| + 2);
    hide Wrap, Result, EncoderAfter, Encoded, PushedOk, SentOk, DoneRising, PushedRising, PushedBelow, BoardInv, Exchange, Recent, Believed;
  }

  lemma CycleKeeps(c: Codec, s: Link, play: bool, pcm: int, x: Wire)
    requires Inv(c, s) && Recent(s) && s.w.ready && (play ==> s.queued < QueueFrames - 1)
    ensures Inv(c, Cycle(c, s, play, pcm, x))
  {
    ExchangeKeeps(c, s, Request(Session(s.w), play, if play then pcm else 0), x);
    BelowMore(s.pushed, if s.w.havePrevious then s.previous else |s.sent| + 1, |s.sent| + 2);
    hide Wrap, Result, EncoderAfter, Encoded, PushedOk, SentOk, DoneRising, PushedRising, PushedBelow, BoardInv, Exchange, Recent;
  }

  lemma TurnKeeps(c: Codec, s: Link, a: Action)
    requires Inv(c, s) && Recent(s) && a.Turn?
    ensures Inv(c, Step(c, s, a))
  {
    hide Inv, Probe, Cycle, Recent;
    if !s.w.ready {
      ProbeKeeps(c, s, a.wire);
    } else if a.seen >= s.queued {
      CycleKeeps(c, s, a.play && a.seen < QueueFrames - 1, a.pcm, a.wire);
    }
  }

  lemma StepKeeps(c: Codec, s: Link, a: Action)
    requires Inv(c, s) && Recent(s)
    ensures Inv(c, Step(c, s, a))
  {
    if a.Turn? {
      hide Inv, Step;
      TurnKeeps(c, s, a);
    } else {
      BelowMore(s.pushed, if s.w.havePrevious then s.previous else |s.sent| + 1, |s.sent| + 1);
      hide Wrap, Result, EncoderAfter, Encoded, PushedOk, SentOk, DoneRising, PushedRising, PushedBelow, BoardInv;
    }
  }

  lemma StartHolds(c: Codec, base: Word)
    ensures Inv(c, Start(c, base))
  {
  }

  lemma {:induction false} RunKeeps(c: Codec, base: Word, actions: seq<Action>)
    requires AllRecent(c, Start(c, base), actions)
    ensures Inv(c, Run(c, Start(c, base), actions))
    decreases |actions|
  {
    if actions == [] {
      StartHolds(c, base);
    } else {
      hide Inv, Step, Recent, Start;
      RunKeeps(c, base, actions[..|actions| - 1]);
      StepKeeps(c, Run(c, Start(c, base), actions[..|actions| - 1]), actions[|actions| - 1]);
    }
  }

  // --------------------------------------------------------------------------
  // What the runs promise
  // --------------------------------------------------------------------------

  lemma {:induction false} EncodedAt(c: Codec, done: seq<Done>, k: nat)
    requires Encoded(c, done) && k < |done|
    ensures done[k].frame == c.encode(EncoderAfter(c, done[..k]), done[k].pcm).1
    decreases |done|
  {
    if k < |done| - 1 {
      var before := done[..|done| - 1];
      EncodedAt(c, before, k);
      assert before[..k] == done[..k];
    }
  }

  /** `frame` is the encoder's output for the block of request `number`, after exactly the blocks encoded before it. */
  predicate IsOutput(c: Codec, s: Link, number: nat, frame: int) {
    1 <= number <= |s.sent| && s.sent[number - 1].play &&
    exists k :: 0 <= k < |s.done| && s.done[k].number == number &&
      c.encode(EncoderAfter(c, s.done[..k]), s.sent[number - 1].pcm).1 == Some(frame)
  }

  /**
   Whatever is lost, garbled or interrupted: every encoded frame enters the audio queue at most once and in the
   order of the requests, is the encoder's output for the block of the request it answers, and always finds room.
   */
  lemma EncodedOnceInOrder(c: Codec, base: Word, actions: seq<Action>)
    requires AllRecent(c, Start(c, base), actions)
    ensures var s := Run(c, Start(c, base), actions);
      (forall i, j :: 0 <= i < j < |s.pushed| ==> s.pushed[i].0 < s.pushed[j].0) &&
      (forall i :: 0 <= i < |s.pushed| ==> IsOutput(c, s, s.pushed[i].0, s.pushed[i].1)) &&
      s.queued <= QueueFrames && s.drops == 0
  {
    RunKeeps(c, base, actions);
    hide Run, Start, BoardInv, WorkerInv, Recent, Encoded, SentOk, DoneRising, IsOutput;
    var s := Run(c, Start(c, base), actions);
    forall i | 0 <= i < |s.pushed| ensures IsOutput(c, s, s.pushed[i].0, s.pushed[i].1) {
      PushedIsOutput(c, s, i);
    }
  }

  lemma PushedIsOutput(c: Codec, s: Link, i: nat)
    requires Encoded(c, s.done) && SentOk(s.sent, s.done) && PushedOk(s.pushed, s.done) && i < |s.pushed|
    ensures IsOutput(c, s, s.pushed[i].0, s.pushed[i].1)
  {
    var (number, frame) := s.pushed[i];
    assert Result(s.done, number, frame);
    hide PushedOk;
    var k :| 0 <= k < |s.done| && s.done[k].number == number && s.done[k].frame == Some(frame);
    EncodedAt(c, s.done, k);
    hide EncoderAfter, Encoded;
  }

  /**
   A turn of a ready worker sends one request of the current session, unless it sees fewer frames than are queued: to
   play the given block exactly when it may and fewer than three frames are seen, and otherwise empty.
   */
  lemma TurnSends(c: Codec, s: Link, play: bool, pcm: int, seen: nat, x: Wire)
    requires s.w.ready && seen >= s.queued
    ensures var t := Step(c, s, Turn(play, pcm, seen, x)); var plays := play && seen <= 2;
      |t.sent| == |s.sent| + 1 && t.sent[..|s.sent|] == s.sent &&
      var r := t.sent[|s.sent|]; r.session == Session(s.w) && r.play == plays && (plays ==> r.pcm == pcm)
  {
    var r := Request(Session(s.w), play && seen < QueueFrames - 1, if play && seen < QueueFrames - 1 then pcm else 0);
    HeardSent(c, Send(s, r), r, Send(s, r).w.num, x.heard);
    var u := Bump(BoardHears(c, Send(s, r), r, Send(s, r).w.num, x.heard), x.newSession);
    AcceptSent(u, Send(s, r).b.tx, x.intact && !x.heard.Nothing?);
    hide BoardHears, Accept;
  }

  /** The board takes a new request for a repetition exactly when as many requests lie between as the numbers wrap. */
  lemma RepeatsIff(c: Codec, s: Link, session: Word)
    requires Inv(c, s) && s.b.haveCached
    ensures Repeats(s.b, session, Wrap(|s.sent| + 1)) <==>
            session == s.sent[s.last - 1].session && (|s.sent| + 1 - s.last) % U32 == 0
  {
    hide Result, EncoderAfter, Encoded, SentOk, DoneRising, QueueInv;
    SameNumber(|s.sent| + 1, s.last);
    hide Wrap;
  }

  lemma SameNumber(a: nat, b: nat)
    ensures Wrap(a) == Wrap(b) <==> (a - b) % U32 == 0
  {
    var q := a / U32 - b / U32;
    assert a - b == U32 * q + (Wrap(a) - Wrap(b));
    if Wrap(a) == Wrap(b) { Multiple(q); }
    if (a - b) % U32 == 0 { SmallMultiple(Wrap(a) - Wrap(b), (a - b) / U32 - q); }
  }

  lemma SmallMultiple(d: int, m: int)
    requires d == U32 * m && -U32 < d < U32
    ensures d == 0
  {
  }

  lemma Multiple(q: int)
    ensures (U32 * q) % U32 == 0
  {
  }

  // --------------------------------------------------------------------------
  // Nothing gets lost while nothing goes wrong
  // --------------------------------------------------------------------------

  /**
   A transfer that completes whole and brings a frame for the previous request, in the current session, appends exactly
   that request's number and frame, which is its result; without one of these nothing is appended.
   */
  lemma BelievedIsPushed(c: Codec, s: Link, r: Request, x: Wire)
    requires Inv(c, s) && Recent(s) && !x.newSession
    ensures var t := Exchange(c, s, r, x); var rx := s.b.tx;
      if x.completed && x.intact && !x.heard.Nothing? && s.w.havePrevious && rx.session == s.w.previousSession == Session(s.w) &&
         rx.num == s.w.previousSeq && rx.play
      then t.pushed == s.pushed + [(s.previous, rx.frame)] && Result(s.done, s.previous, rx.frame) && t.queued == s.queued + 1
      else t.pushed == s.pushed && t.queued == s.queued
  {
    HearsKeeps(c, s, r, x.heard);
    if s.w.havePrevious && s.b.tx.play && s.b.tx.num == s.w.previousSeq { BelievedIsPrevious(c, s); }
    hide Wrap, Result, EncoderAfter, Encoded, PushedOk, SentOk, DoneRising, PushedRising, PushedBelow, BoardInv, BoardHears, RecordsOk;
  }

  /** The answer to request `n` that the board has ready: its result, or for an empty request no frame and no error. */
  predicate AnswerIs(tx: Response, play: bool, done: seq<Done>, n: nat) {
    if play then done != [] && done[|done| - 1].number == n && done[|done| - 1].frame == (if tx.play then Some(tx.frame) else None)
    else !tx.play && tx.status == Ok
  }

  /** The board holds the answer to the latest request, and the worker waits for just that. */
  predicate Primed(s: Link) {
    s.w.havePrevious && 1 <= s.previous == |s.sent| && s.w.previousSession == s.b.tx.session == Session(s.w) &&
    s.b.tx.num == s.w.previousSeq && AnswerIs(s.b.tx, s.sent[s.previous - 1].play, s.done, s.previous)
  }

  const Clean := Wire(Whole, true, true, false)

  /** After a clean transfer of the current session the link is primed, whatever was before. */
  lemma CleanPrimes(c: Codec, s: Link, r: Request)
    requires Inv(c, s) && Recent(s) && r.session == Session(s.w)
    ensures var t := Exchange(c, s, r, Clean);
      Primed(t) && t.sent == s.sent + [r] && t.w.ready == s.w.ready && t.w.base == s.w.base && t.w.epoch == s.w.epoch &&
      |s.done| <= |t.done| && t.done[..|s.done|] == s.done &&
      (if r.play then |t.done| == |s.done| + 1 && t.done[..|s.done|] == s.done && t.done[|s.done|].number == |t.sent| else t.done == s.done)
  {
    NotRepeated(c, s, r.session);
    WrappedSum(|s.sent|, 1);
    assert s.w.num == Wrap(|s.sent|);
    hide Wrap, Result, EncoderAfter, Inv, Recent, Push, BoardHears, Accept, Repeats;
    var t := Send(s, r);
    var u := BoardHears(c, t, r, t.w.num, Whole);
    WholeAnswers(c, t, r, t.w.num);
    AcceptLeaves(Bump(u, false), t.b.tx, true);
    assert t.sent[|t.sent| - 1] == r;
  }

  lemma WholeAnswers(c: Codec, s: Link, r: Request, num: Word)
    requires !Repeats(s.b, r.session, num)
    ensures var u := BoardHears(c, s, r, num, Whole);
      u.w == s.w && u.sent == s.sent && u.b.tx.session == r.session && u.b.tx.num == num && AnswerIs(u.b.tx, r.play, u.done, |s.sent|) &&
      (if r.play then |u.done| == |s.done| + 1 && u.done[..|s.done|] == s.done && u.done[|s.done|].number == |s.sent| else u.done == s.done)
  {
  }

  lemma AcceptLeaves(s: Link, rx: Response, whole: bool)
    ensures var u := Accept(s, rx, whole); u.w == s.w && u.sent == s.sent && u.b == s.b && u.done == s.done && u.previous == s.previous
  {
  }

  /** From a primed link, a clean transfer delivers the answer that was waiting. */
  lemma PrimedDelivers(c: Codec, s: Link, r: Request)
    requires Inv(c, s) && Recent(s) && Primed(s)
    ensures var t := Exchange(c, s, r, Clean);
      t.pushed == s.pushed + (if s.b.tx.play then [(s.previous, s.b.tx.frame)] else [])
  {
    BelievedIsPushed(c, s, r, Clean);
    hide Inv, Recent, Exchange, AnswerIs, Result;
  }

  predicate Answered(done: seq<Done>, n: nat) {
    exists k :: 0 <= k < |done| && done[k].number == n
  }

  /**
   Since request `from`: every request to play was encoded, and every frame that came of one, other than the latest
   request's, entered the queue.
   */
  predicate Delivered(s: Link, from: nat) {
    (forall n :: from < n <= |s.sent| && s.sent[n - 1].play ==> Answered(s.done, n)) &&
    (forall k :: 0 <= k < |s.done| && from < s.done[k].number < s.previous && s.done[k].frame.Some? ==>
      (s.done[k].number, s.done[k].frame.value) in s.pushed)
  }

  predicate Steady(s: Link, from: nat) {
    Primed(s) && Delivered(s, from)
  }

  lemma AnsweredStays(done: seq<Done>, d: Done, n: nat)
    requires Answered(done, n)
    ensures Answered(done + [d], n)
  {
    var k :| 0 <= k < |done| && done[k].number == n;
    assert (done + [d])[k].number == n;
  }

  /** One clean transfer after another: what was waiting is in the queue. */
  lemma SteadyExchange(c: Codec, s: Link, r: Request, from: nat)
    requires Inv(c, s) && Recent(s) && Steady(s, from) && r.session == Session(s.w)
    ensures Steady(Exchange(c, s, r, Clean), from)
  {
    var t := Exchange(c, s, r, Clean);
    CleanPrimes(c, s, r);
    PrimedDelivers(c, s, r);
    assert DoneRising(s.done) && SentOk(s.sent, s.done);
    assert Primed(t) && t.previous == |t.sent| && s.previous == |s.sent|;
    hide Inv, Recent, Exchange, AnswerIs;
    AllAnswered(s, t, r, from);
    hide Answered, Primed;
    AllPushed(s, t, from);
  }

  lemma AllAnswered(s: Link, t: Link, r: Request, from: nat)
    requires Delivered(s, from) && t.sent == s.sent + [r]
    requires if r.play then |t.done| == |s.done| + 1 && t.done[..|s.done|] == s.done && t.done[|s.done|].number == |t.sent| else t.done == s.done
    ensures forall n :: from < n <= |t.sent| && t.sent[n - 1].play ==> Answered(t.done, n)
  {
    forall n | from < n <= |t.sent| && t.sent[n - 1].play ensures Answered(t.done, n) {
      if n <= |s.sent| {
        assert s.sent[n - 1].play && Answered(s.done, n);
        if r.play { AnsweredStays(s.done, t.done[|s.done|], n); assert t.done == s.done + [t.done[|s.done|]]; }
      } else {
        assert t.done[|s.done|].number == n;
      }
    }
  }

  lemma AllPushed(s: Link, t: Link, from: nat)
    requires Delivered(s, from) && Primed(s) && DoneRising(s.done) && SentOk(s.sent, s.done) && s.previous == |s.sent|
    requires t.previous == s.previous + 1 && t.pushed == s.pushed + (if s.b.tx.play then [(s.previous, s.b.tx.frame)] else [])
    requires |s.done| <= |t.done| <= |s.done| + 1 && t.done[..|s.done|] == s.done && (|t.done| > |s.done| ==> t.done[|s.done|].number == t.previous)
    ensures forall k :: 0 <= k < |t.done| && from < t.done[k].number < t.previous && t.done[k].frame.Some? ==>
              (t.done[k].number, t.done[k].frame.value) in t.pushed
  {
    hide Primed, Answered, SentOk, DoneRising;
    forall k | 0 <= k < |t.done| && from < t.done[k].number < t.previous && t.done[k].frame.Some?
      ensures (t.done[k].number, t.done[k].frame.value) in t.pushed
    {
      assert k < |s.done| && t.done[k] == s.done[k];
      if s.done[k].number == s.previous { WaitingIsLast(s, k); }
    }
  }

  lemma WaitingIsLast(s: Link, k: nat)
    requires Primed(s) && DoneRising(s.done) && SentOk(s.sent, s.done) && k < |s.done| && s.done[k].number == s.previous
    ensures s.done[k].frame == (if s.b.tx.play then Some(s.b.tx.frame) else None)
  {
    assert s.sent[s.previous - 1].play;
    assert k == |s.done| - 1;
  }

  predicate CleanAction(a: Action) {
    a.Consumed? || (a.Turn? && a.wire == Clean)
  }

  /** While ready, turns without loss and the consumer keep the link steady. */
  lemma SteadyStep(c: Codec, s: Link, a: Action, from: nat)
    requires Inv(c, s) && Recent(s) && Steady(s, from) && s.w.ready && CleanAction(a)
    ensures Steady(Step(c, s, a), from) && Step(c, s, a).w.ready
  {
    if a.Turn? {
      var r := Request(Session(s.w), a.play && a.seen < QueueFrames - 1, if a.play && a.seen < QueueFrames - 1 then a.pcm else 0);
      SteadyExchange(c, s, r, from);
      CleanPrimes(c, s, r);
      hide Inv, Recent, Exchange, Steady, Primed;
    } else {
      hide Inv, Recent, Answered, AnswerIs;
    }
  }

  lemma ProbePrimes(c: Codec, s: Link)
    requires Inv(c, s) && Recent(s) && !s.w.ready
    ensures var t := Probe(c, s, Clean);
      Primed(t) && t.sent == s.sent + [Request(Session(s.w), false, 0)] &&
      (Primed(s) && !s.sent[s.previous - 1].play ==> t.w.ready)
  {
    CleanPrimes(c, s, Request(Session(s.w), false, 0));
    hide Inv, Recent, Exchange;
  }

  lemma PrimedIsSteady(s: Link)
    requires Primed(s)
    ensures Steady(s, |s.sent|)
  {
  }

  /** Two clean turns bring any link that is not ready to the steady state. */
  lemma TwoTurns(c: Codec, s: Link, a: Action, b: Action)
    requires Inv(c, s) && Recent(s) && !s.w.ready && a.Turn? && a.wire == Clean && b.Turn? && b.wire == Clean
    requires Recent(Step(c, s, a))
    ensures var t := Step(c, Step(c, s, a), b); t.w.ready && Steady(t, |t.sent|) && |t.sent| <= |s.sent| + 2
  {
    var u := Step(c, s, a);
    ProbePrimes(c, s);
    StepKeeps(c, s, a);
    assert u == Probe(c, s, Clean);
    assert u.sent[|u.sent| - 1] == Request(Session(s.w), false, 0);
    var t := Step(c, u, b);
    if u.w.ready {
      PrimedIsSteady(u);
      SteadyStep(c, u, b, |u.sent|);
      OneMore(c, u, b);
    } else {
      ProbePrimes(c, u);
      assert t == Probe(c, u, Clean);
    }
    hide Inv, Recent, Probe, Step, Delivered, Session;
    assert Primed(t) by { hide Primed; }
    PrimedIsSteady(t);
    hide Primed;
  }

  lemma OneMore(c: Codec, s: Link, a: Action)
    requires s.w.ready && a.Turn?
    ensures |Step(c, s, a).sent| <= |s.sent| + 1
  {
    hide BoardHears, Accept;
    forall t: Link, r: Request, num: Word, heard: Heard ensures BoardHears(c, t, r, num, heard).sent == t.sent {
      HeardSent(c, t, r, num, heard);
    }
    forall t: Link, rx: Response, whole: bool ensures Accept(t, rx, whole).sent == t.sent { AcceptSent(t, rx, whole); }
  }

  lemma HeardSent(c: Codec, s: Link, r: Request, num: Word, heard: Heard)
    ensures BoardHears(c, s, r, num, heard).sent == s.sent
  {
    hide Process, Repeats;
  }

  lemma AcceptSent(s: Link, rx: Response, whole: bool)
    ensures Accept(s, rx, whole).sent == s.sent
  {
  }

  lemma SteadyLater(s: Link, from: nat, later: nat)
    requires Steady(s, from) && from <= later
    ensures Steady(s, later)
  {
    hide Primed, Answered;
  }

  lemma {:induction false} SteadyRun(c: Codec, s: Link, actions: seq<Action>, from: nat)
    requires Inv(c, s) && s.w.ready && Steady(s, from) && AllRecent(c, s, actions) && forall x :: x in actions ==> CleanAction(x)
    ensures var t := Run(c, s, actions); Inv(c, t) && t.w.ready && Steady(t, from)
    decreases |actions|
  {
    if actions != [] {
      hide Inv, Step, Recent, Steady;
      var before := actions[..|actions| - 1];
      SteadyRun(c, s, before, from);
      SteadyStep(c, Run(c, s, before), actions[|actions| - 1], from);
      StepKeeps(c, Run(c, s, before), actions[|actions| - 1]);
    }
  }

  /**
   From any link that is not ready, at the start or after a failure: once two turns and any number after them go through
   without loss, failure, new session or pause, every request to play sent after those two has been encoded, and every
   frame that came of one has entered the queue, up to the answer to the latest request.
   */
  lemma NothingIsLost(c: Codec, s: Link, a: Action, b: Action, actions: seq<Action>)
    requires Inv(c, s) && !s.w.ready && a.Turn? && a.wire == Clean && b.Turn? && b.wire == Clean
    requires Recent(s) && Recent(Step(c, s, a)) && AllRecent(c, Step(c, Step(c, s, a), b), actions)
    requires forall x :: x in actions ==> CleanAction(x)
    ensures var t := Run(c, Step(c, Step(c, s, a), b), actions);
      t.w.ready && t.previous == |t.sent| && Delivered(t, |s.sent| + 2)
  {
    hide Inv, Step, Recent, Run, AllRecent, Delivered;
    var start := Step(c, Step(c, s, a), b);
    TwoTurns(c, s, a, b);
    StepKeeps(c, s, a);
    StepKeeps(c, Step(c, s, a), b);
    SteadyLater(start, |start.sent|, |s.sent| + 2);
    SteadyRun(c, start, actions, |s.sent| + 2);
  }

  // --------------------------------------------------------------------------
  // The two programs as they are written
  // --------------------------------------------------------------------------

  class CodecBoard {
    const codec: Codec
    var tx: Response
    var cached: Response
    var haveCached: bool
    var lastSession: Word
    var lastSeq: Word
    var encoder: int

    function Value(): Board
      reads this
    {
      Board(tx, cached, haveCached, lastSession, lastSeq, encoder)
    }

    constructor (c: Codec)
      ensures codec == c && Value() == Boot(c)
    {
      codec := c;
      tx, cached := Response(0, 0, NotReady, false, 0), Response(0, 0, NotReady, false, 0);
      haveCached, lastSession, lastSeq, encoder := false, 0, 0, c.start;
    }

    /** One received frame: refused, answered from the cache, or worked on. */
    method Receive(whole: bool, r: Request, num: Word)
      modifies this
      ensures Value() == if whole then Process(codec, old(Value()), r, num) else ProcessGarbled(old(Value()), r.session, num)
    {
      if !whole {
        tx := Response(r.session, num, BadWire, false, 0);
        return;
      }
      if haveCached && r.session == lastSession && num == lastSeq {
        tx := cached;
        return;
      }
      tx := Response(r.session, num, Ok, false, 0);
      if r.play {
        var (next, frame) := codec.encode(encoder, r.pcm);
        encoder := next;
        if frame.Some? {
          tx := tx.(play := true, frame := frame.value);
        } else {
          tx := tx.(status := EncodeError);
        }
      }
      cached := tx;
      haveCached, lastSession, lastSeq := true, r.session, num;
    }
  }

  class SpiWorker {
    const board: CodecBoard
    var base: Word
    var epoch: Word
    var num: Word
    var previousSession: Word
    var previousSeq: Word
    var havePrevious: bool
    var ready: bool
    var queued: nat
    var drops: nat
    ghost var sent: seq<Request>
    ghost var done: seq<Done>
    ghost var pushed: seq<(nat, int)>
    ghost var previous: nat
    ghost var last: nat

    constructor (codec: CodecBoard, first: Word)
      ensures board == codec && State() == Worker(first, 0, 0, 0, 0, false, false) && queued == 0 && drops == 0
      ensures sent == [] && done == [] && pushed == [] && previous == 0 && last == 0
    {
      board := codec;
      base, epoch, num, previousSession, previousSeq, havePrevious, ready := first, 0, 0, 0, 0, false, false;
      queued, drops := 0, 0;
      sent, done, pushed, previous, last := [], [], [], 0, 0;
    }

    function State(): Worker
      reads this
    {
      Worker(base, epoch, num, previousSession, previousSeq, havePrevious, ready)
    }

    ghost function Value(): Link
      reads this, board
    {
      Link(State(), board.Value(), queued, drops, sent, done, pushed, previous, last)
    }

    /** One full-duplex transfer. */
    method Transfer(r: Request, x: Wire) returns (ok: bool, rx: Response, whole: bool)
      modifies this`done, this`last, this`epoch, board
      ensures ok == x.completed && rx == old(board.tx) && whole == (x.intact && !x.heard.Nothing?)
      ensures Value() == Bump(BoardHears(board.codec, old(Value()), r, num, x.heard), x.newSession)
    {
      hide Process, Repeats;
      ok, rx, whole := x.completed, board.tx, x.intact && !x.heard.Nothing?;
      if x.heard.Garbled? {
        board.Receive(false, Request(x.heard.session, false, 0), x.heard.num);
      } else if x.heard.Whole? {
        ghost var b := board.Value();
        if !Repeats(b, r.session, num) {
          last := |sent|;
          if r.play { done := done + [Done(|sent|, r.pcm, board.codec.encode(b.encoder, r.pcm).1)]; }
        }
        board.Receive(true, r, num);
      }
      if x.newSession { epoch := Add32(epoch, 1); }
    }

    method AcceptResponse(rx: Response, whole: bool) returns (ok: bool)
      modifies this`queued, this`drops, this`pushed
      ensures Value() == Accept(old(Value()), rx, whole) && ok == (whole && Believed(State(), rx))
    {
      if !whole { return false; }
      if !havePrevious { return false; }
      if rx.session != previousSession || rx.num != previousSeq { return false; }
      if previousSession != Add32(base, epoch) { return false; }
      if rx.play {
        if queued >= QueueFrames {
          drops := drops + 1;
        } else {
          queued := queued + 1;
          pushed := pushed + [(previous, rx.frame)];
        }
      }
      return true;
    }

    method Turn(play: bool, pcm: int, seen: nat, x: Wire)
      modifies this, board
      ensures Value() == Step(board.codec, old(Value()), Action.Turn(play, pcm, seen, x))
    {
      hide Probe, Cycle;
      if !ready {
        ProbeBoard(x);
      } else if seen >= queued {
        CycleOnce(play && seen < QueueFrames - 1, pcm, x);
      }
    }

    method BeginRequest(r: Request)
      modifies this`num, this`sent
      ensures Value() == Send(old(Value()), r)
    {
      sent := sent + [r];
      num := Add32(num, 1);
    }

    method RememberRequest(session: Word)
      modifies this`previousSession, this`previousSeq, this`havePrevious, this`previous
      ensures Value() == Remember(old(Value()), session)
    {
      previousSession, previousSeq, havePrevious := session, num, true;
      previous := |sent|;
    }

    method ProbeBoard(x: Wire)
      modifies this, board
      ensures Value() == Probe(board.codec, old(Value()), x)
    {
      hide BoardHears, Accept, Send;
      ghost var s := Value();
      var session := Add32(base, epoch);
      var r := Request(session, false, 0);
      BeginRequest(r);
      ghost var t := Value();
      SendStays(s, r);
      HearsStays(board.codec, t, r, num, x.heard);
      var ok, rx, whole := Transfer(r, Quiet(x));
      if ok {
        var believed := AcceptResponse(rx, whole);
        ready := believed && rx.status == Ok;
        RememberRequest(session);
      } else {
        ready := false;
      }
      if x.newSession { epoch := Add32(epoch, 1); }
    }

    method CycleOnce(play: bool, pcm: int, x: Wire)
      modifies this, board
      ensures Value() == Cycle(board.codec, old(Value()), play, pcm, x)
    {
      hide BoardHears, Accept, Send, Remember, Bump;
      var session := Add32(base, epoch);
      var r := Request(session, play, if play then pcm else 0);
      BeginRequest(r);
      var ok, rx, whole := Transfer(r, x);
      if !ok {
        ready := false;
        havePrevious := false;
        return;
      }
      var believed := AcceptResponse(rx, whole);
      RememberRequest(session);
    }
  }

  lemma SendStays(s: Link, r: Request)
    ensures var t := Send(s, r); t.b == s.b && t.w == s.w.(num := t.w.num)
  {
  }

  lemma HearsStays(c: Codec, s: Link, r: Request, num: Word, heard: Heard)
    ensures var t := BoardHears(c, s, r, num, heard); t == s.(b := t.b, last := t.last, done := t.done)
  {
    hide Process, Repeats;
  }
}
