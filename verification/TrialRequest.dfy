/**
 The requests that the trial scheduler makes of the radio driver (tone_trial.c): whatever it has prepared,
 the driver's check of the arguments accepts it, as an ordinary event, as a repeat, and as a repeat's fallback.
 */
module TrialRequest {
  import opened Words
  import Q = AudioQueue
  import P = PacketCache
  import R = RadioTx

  const RepeatDelay := 1420
  const OrdinaryDelay := 2350
  const ReplyWindow := 150
  const ReceiveWindow := 600

  /** What may be repeated (retry_audio_eligible): stable stereo audio, or with a reused control trailer in a quiet slot. */
  predicate Eligible(e: P.Entry, quiet: bool, slot: bool) {
    !e.built.receive && e.built.stereo && e.v.mask == 6 &&
    ((|e.built.wire| == 203 && e.built.header == 0x30) ||
     (|e.built.wire| == 205 && e.built.header == 0x32 && e.reused && quiet && slot))
  }

  function RequestFor(se: P.Session, b: P.Built, repeat: bool, replyChannel: int, crcInit: int, optionByte: int): R.Request {
    R.Request(
      b.hs, b.hus, se.plan.aa, crcInit, |b.wire|, b.channel, b.header, 2,
      if b.receive then ReceiveWindow else 0, 0,
      if repeat then RepeatDelay else if b.receive then 0 else OrdinaryDelay,
      if b.receive && !repeat then 0 else ReplyWindow,
      replyChannel, if repeat then 1 else 0, if repeat then 1 else 0, optionByte)
  }

  /** The ordinary shape at the same instant (submit_with_retry_fallback). */
  function Fallback(r: R.Request): R.Request {
    r.(repeat := 0, prequeued := 0, delay := OrdinaryDelay)
  }

  /** Stereo audio that is sent always has one of the two shapes that may be repeated. */
  lemma StereoShape(se: P.Session, index: nat, v: P.Vector, audio: Option<Q.Frame>)
    requires P.SessionOk(se) && P.Fresh(se, index, v, audio).Some?
    ensures var b := P.Fresh(se, index, v, audio).value;
      b.stereo && !b.receive ==> (|b.wire| == 203 && b.header == 0x30) || (|b.wire| == 205 && b.header == 0x32)
  {
    hide P.Fresh, P.GoodMask;
    P.FreshShape(se, index, v, audio);
  }

  /** The parent's packet in a poll is at most 68 bytes, or the build fails. */
  lemma PollFits(se: P.Session, index: nat, v: P.Vector, audio: Option<Q.Frame>)
    requires P.SessionOk(se) && P.Fresh(se, index, v, audio).Some? && P.Polls(index, v.mask)
    ensures |v.parent.payload| <= P.MaxParent
  {
    hide P.Fresh, P.Records, P.HeaderOf, P.MaskedAad;
    P.PacketNeeds(se, index, v, audio);
  }

  /** The driver's argument check accepts every request of the scheduler, and the fallback of every repeat. */
  lemma NeverInvalid(se: P.Session, index: nat, v: P.Vector, audio: Option<Q.Frame>, repeat: bool,
                     replyChannel: int, crcInit: int, optionByte: int)
    requires P.SessionOk(se) && P.Fresh(se, index, v, audio).Some? && 0 <= replyChannel <= 39 && 0 <= crcInit <= 0xffffff
    requires repeat ==> P.Fresh(se, index, v, audio).value.stereo && !P.Receives(index)
    ensures var r := RequestFor(se, P.Fresh(se, index, v, audio).value, repeat, replyChannel, crcInit, optionByte);
      R.GoodRequest(r) && (repeat ==> R.GoodRequest(Fallback(r)))
  {
    hide P.Fresh, P.ChannelAt, P.ContentFor, P.HeaderOf, P.ExpectedLength, P.MaskedAad, P.GoodMask, R.GoodRequest;
    ShapeFits(se, index, v, audio);
    StereoShape(se, index, v, audio);
    P.PacketNeeds(se, index, v, audio);
    P.ChannelUsed(se.plan, index);
    P.FreshShape(se, index, v, audio);
    BuiltIsGood(se, P.Fresh(se, index, v, audio).value, repeat, replyChannel, crcInit, optionByte);
  }

  predicate GoodShape(b: P.Built) {
    0 < |b.wire| <= 251 &&
    (b.header <= 15 || b.header == 0x10 || b.header == 0x11 || b.header == 0x20 || b.header == 0x30 ||
     (b.header == 0x32 && (|b.wire| == 205 || |b.wire| == 15)))
  }

  lemma BuiltIsGood(se: P.Session, b: P.Built, repeat: bool, replyChannel: int, crcInit: int, optionByte: int)
    requires GoodShape(b) && b.channel <= 39 && 0 <= replyChannel <= 39 && 0 <= crcInit <= 0xffffff
    requires repeat ==> !b.receive && ((|b.wire| == 203 && b.header == 0x30) || (|b.wire| == 205 && b.header == 0x32))
    ensures var r := RequestFor(se, b, repeat, replyChannel, crcInit, optionByte);
      R.GoodRequest(r) && (repeat ==> R.GoodRequest(Fallback(r)))
  {
  }

  /** Length and header of whatever is built are among those that the driver takes. */
  lemma ShapeFits(se: P.Session, index: nat, v: P.Vector, audio: Option<Q.Frame>)
    requires P.SessionOk(se) && P.Fresh(se, index, v, audio).Some?
    ensures GoodShape(P.Fresh(se, index, v, audio).value)
  {
    hide P.Fresh;
    P.FreshShape(se, index, v, audio);
    P.FreshHeader(se, index, v, audio);
    if P.Polls(index, v.mask) { PollFits(se, index, v, audio); }
  }

  /** In particular for an eligible frame of the caches, sent twice. */
  lemma EligibleIsRepeatable(se: P.Session, e: P.Entry, audio: Option<Q.Frame>, quiet: bool, slot: bool,
                             replyChannel: int, crcInit: int, optionByte: int)
    requires P.SessionOk(se) && P.Fresh(se, e.index, e.v, audio) == Some(e.built) && Eligible(e, quiet, slot)
    requires 0 <= replyChannel <= 39 && 0 <= crcInit <= 0xffffff
    ensures R.GoodRequest(RequestFor(se, e.built, true, replyChannel, crcInit, optionByte))
  {
    hide P.Fresh;
    P.FreshShape(se, e.index, e.v, audio);
    NeverInvalid(se, e.index, e.v, audio, true, replyChannel, crcInit, optionByte);
  }
}
