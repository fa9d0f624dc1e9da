/** The endless loop behind the ambient player: a device that reads a sound in a circle, and the blend that
    joins a sound's end to its start. */
module EndlessLoop {
  import opened Basics

  const FRAME := 4
  const CHANNELS := 2

  // ----- Reading in a circle -----

  /** The byte after `at`, going round. */
  function Around(at: nat, length: nat): (next: nat)
    requires at < length
    ensures next < length
  {
    if at + 1 == length then 0 else at + 1
  }

  /** Where `count` bytes on from `at` is. */
  function Forward(at: nat, length: nat, count: nat): (end: nat)
    requires at < length
    ensures end < length
    decreases count
  {
    if count == 0 then at else Forward(Around(at, length), length, count - 1)
  }

  /** `count` bytes of the sound repeated for ever, from byte `at`. */
  function Endless(pcm: seq<bv8>, at: nat, count: nat): (out: seq<bv8>)
    requires at < |pcm|
    ensures |out| == count
    decreases count
  {
    if count == 0 then [] else [pcm[at]] + Endless(pcm, Around(at, |pcm|), count - 1)
  }

  /** Reading on from where the first part ended leaves no gap. */
  lemma {:induction false} EndlessContinues(pcm: seq<bv8>, at: nat, first: nat, second: nat)
    requires at < |pcm|
    ensures Endless(pcm, at, first) + Endless(pcm, Forward(at, |pcm|, first), second)
         == Endless(pcm, at, first + second)
    ensures Forward(Forward(at, |pcm|, first), |pcm|, second) == Forward(at, |pcm|, first + second)
    decreases first
  {
    if first == 0 {
      assert [] + Endless(pcm, at, second) == Endless(pcm, at, second);
    } else {
      EndlessContinues(pcm, Around(at, |pcm|), first - 1, second);
      assert [pcm[at]] + Endless(pcm, Around(at, |pcm|), first - 1) + Endless(pcm, Forward(at, |pcm|, first), second)
          == [pcm[at]] + (Endless(pcm, Around(at, |pcm|), first - 1) + Endless(pcm, Forward(at, |pcm|, first), second));
    }
  }

  /** As far as the end of the sound, the endless sound is the sound. */
  lemma {:induction false} EndlessWithin(pcm: seq<bv8>, at: nat, count: nat)
    requires at < |pcm| && at + count <= |pcm|
    ensures Endless(pcm, at, count) == pcm[at..at + count]
    ensures Forward(at, |pcm|, count) == if count > 0 && at + count == |pcm| then 0 else at + count
    decreases count
  {
    if count == 1 {
      assert Endless(pcm, Around(at, |pcm|), 0) == [];
    } else if count > 1 {
      EndlessWithin(pcm, at + 1, count - 1);
    }
  }

  function Repeated(pcm: seq<bv8>, times: nat): seq<bv8> {
    if times == 0 then [] else pcm + Repeated(pcm, times - 1)
  }

  /** From the start, whole turns of the circle are the sound again and again. */
  lemma {:induction false} EndlessRepeats(pcm: seq<bv8>, times: nat)
    requires |pcm| > 0
    ensures Endless(pcm, 0, |Repeated(pcm, times)|) == Repeated(pcm, times)
  {
    if times > 0 {
      var rest := |Repeated(pcm, times - 1)|;
      EndlessWithin(pcm, 0, |pcm|);
      EndlessContinues(pcm, 0, |pcm|, rest);
      EndlessRepeats(pcm, times - 1);
    }
  }

  /** What a read of at most `maxlen` bytes gives: whole frames only. */
  function Want(maxlen: int): (want: nat)
    ensures want % FRAME == 0
    ensures maxlen >= 0 ==> want <= maxlen < want + FRAME
  {
    if maxlen - maxlen % FRAME <= 0 then 0 else maxlen - maxlen % FRAME
  }

  function Total(sizes: seq<int>): nat {
    if sizes == [] then 0 else Want(sizes[0]) + Total(sizes[1..])
  }

  class LoopDevice {
    const pcm: seq<bv8>
    var at: nat

    predicate Valid()
      reads this
    {
      |pcm| > 0 && |pcm| % FRAME == 0 && at < |pcm| && at % FRAME == 0
    }

    /** Less than a frame cannot loop; a part of a frame at the end is left off. */
    constructor (sound: seq<bv8>)
      requires |sound| >= FRAME
      ensures Valid() && at == 0
      ensures pcm == sound[..|sound| - |sound| % FRAME]
    {
      pcm := sound[..|sound| - |sound| % FRAME];
      at := 0;
    }

    /** The next piece in one stretch: up to the end of the sound, or what is still wanted. */
    method NextChunk(left: nat) returns (chunk: seq<bv8>)
      requires Valid() && left > 0 && left % FRAME == 0
      modifies this`at
      ensures Valid()
      ensures 0 < |chunk| <= left && |chunk| % FRAME == 0
      ensures chunk == Endless(pcm, old(at), |chunk|)
      ensures at == Forward(old(at), |pcm|, |chunk|)
    {
      var end := if at + left <= |pcm| then at + left else |pcm|;
      chunk := pcm[at..end];
      ChunkIsWholeFrames(at, left, |pcm|);
      EndlessWithin(pcm, at, |chunk|);
      WrapOnce(at + |chunk|, |pcm|);
      at := (at + |chunk|) % |pcm|;
    }

    method ReadData(maxlen: int) returns (out: seq<bv8>)
      requires Valid()
      modifies this`at
      ensures Valid()
      ensures out == Endless(pcm, old(at), Want(maxlen))
      ensures at == Forward(old(at), |pcm|, Want(maxlen))
    {
      hide Endless, Forward;
      var want := maxlen - maxlen % FRAME;
      out := [];
      EndlessWithin(pcm, at, 0);
      if want <= 0 {
        return;
      }
      while |out| < want
        invariant Valid()
        invariant |out| <= want && |out| % FRAME == 0
        invariant out == Endless(pcm, old(at), |out|)
        invariant at == Forward(old(at), |pcm|, |out|)
        decreases want - |out|
      {
        var chunk := NextChunk(want - |out|);
        EndlessContinues(pcm, old(at), |out|, |chunk|);
        out := out + chunk;
      }
    }
  }

  /** What reads of these sizes give, one after another. */
  function Reads(pcm: seq<bv8>, at: nat, sizes: seq<int>): seq<bv8>
    requires at < |pcm|
    decreases sizes
  {
    if sizes == [] then []
    else
      Endless(pcm, at, Want(sizes[0])) + Reads(pcm, Forward(at, |pcm|, Want(sizes[0])), sizes[1..])
  }

  /** Reads of any sizes are together one stretch of the endless sound, always in whole frames. */
  lemma {:induction false} ReadsHaveNoGap(pcm: seq<bv8>, at: nat, sizes: seq<int>)
    requires at < |pcm|
    ensures Reads(pcm, at, sizes) == Endless(pcm, at, Total(sizes))
    ensures Total(sizes) % FRAME == 0
    decreases sizes
  {
    if sizes != [] {
      EndlessContinues(pcm, at, Want(sizes[0]), Total(sizes[1..]));
      ReadsHaveNoGap(pcm, Forward(at, |pcm|, Want(sizes[0])), sizes[1..]);
    }
  }

  lemma ChunkIsWholeFrames(at: nat, left: nat, length: nat)
    requires at % FRAME == 0 && left % FRAME == 0 && length % FRAME == 0 && at < length && left > 0
    ensures var chunk := if at + left <= length then left else length - at;
            chunk > 0 && chunk % FRAME == 0
            && ((at + chunk) % length) % FRAME == 0 && (at + chunk) % length < length
  {
    WrapOnce(at + (if at + left <= length then left else length - at), length);
  }

  lemma WrapOnce(at: nat, length: nat)
    requires 0 < at <= length
    ensures at % length == if at == length then 0 else at
  {
  }

  // ----- The seam -----

  /** Rounding to the nearest whole number, halves to even. */
  function Round(x: real): int {
    var below := x.Floor;
    var part := x - below as real;
    if part < 0.5 || (part == 0.5 && below % 2 == 0) then below else below + 1
  }

  predicate Fits(sample: int) {
    -32768 <= sample <= 32767
  }

  /** The two curves at a frame of the blend: how far the start has faded in and the end out. */
  type Curve = (nat, nat) -> (real, real)

  ghost predicate EqualPower(curve: Curve) {
    forall index: nat, blend: nat | index < blend ::
      var (fadeIn, fadeOut) := curve(index, blend);
      fadeIn * fadeIn + fadeOut * fadeOut == 1.0
  }

  /** The end fades out as the start fades in, backwards, and neither is ever silent: so do the sine and the
      cosine of evenly spaced angles inside a quarter turn. */
  ghost predicate Mirrored(curve: Curve) {
    forall index: nat, blend: nat | index < blend ::
      curve(index, blend).0 == curve(blend - 1 - index, blend).1 && curve(index, blend).0 > 0.0
  }

  function Blend(frames: nat, blendFrames: int): nat {
    if blendFrames <= 0 then 0 else if blendFrames < frames / 2 then blendFrames else frames / 2
  }

  /** The longest blend that is no longer than asked for and leaves as much of the sound beside it. */
  lemma BlendIsLongest(frames: nat, blendFrames: int, other: nat)
    ensures var blend := Blend(frames, blendFrames);
            && 2 * blend <= frames && (blend > 0 ==> blend <= blendFrames)
            && (2 * other <= frames && other <= blendFrames ==> other <= blend)
  {
  }

  function Mixed(source: seq<int>, keep: nat, blend: nat, curve: Curve, at: nat): int
    requires at < blend * CHANNELS && keep * CHANNELS + at < |source|
  {
    Mix(source[at], source[keep * CHANNELS + at], curve(at / CHANNELS, blend))
  }

  function Part(sample: int, fade: real): real {
    sample as real * fade
  }

  function Mix(head: int, tail: int, fades: (real, real)): int {
    Round(Part(head, fades.0) + Part(tail, fades.1))
  }

  /** The samples with their end blended into their start. */
  function Seamed(source: seq<int>, frames: nat, blend: nat, curve: Curve): seq<int>
    requires frames * CHANNELS <= |source| && 2 * blend <= frames
  {
    var keep := frames - blend;
    seq(keep * CHANNELS, at requires 0 <= at < keep * CHANNELS =>
      if at < blend * CHANNELS then Mixed(source, keep, blend, curve, at) else source[at])
  }

  /** One frame of the blend, channel by channel. A mixed sample that does not fit 16 bits ends it. */
  method MixFrame(out: array<int>, source: seq<int>, keep: nat, blend: nat, index: nat, curve: Curve)
    returns (overflow: bool)
    requires index < blend <= keep && out.Length == keep * CHANNELS && (keep + blend) * CHANNELS <= |source|
    modifies out
    ensures forall at: nat :: at < out.Length && !FrameHas(index, at) ==> out[at] == old(out[at])
    ensures overflow <==> exists at: nat :: FrameHas(index, at) && !Fits(Mixed(source, keep, blend, curve, at))
    ensures !overflow ==> forall at: nat :: FrameHas(index, at) ==> out[at] == Mixed(source, keep, blend, curve, at)
  {
    var fades := curve(index, blend);
    var channel := 0;
    while channel < CHANNELS
      invariant 0 <= channel <= CHANNELS
      invariant forall at: nat :: at < out.Length && !FrameHas(index, at) ==> out[at] == old(out[at])
      invariant forall at: nat :: FrameHas(index, at) && at < index * CHANNELS + channel ==>
                               out[at] == Mixed(source, keep, blend, curve, at) && Fits(out[at])
    {
      var head := source[index * CHANNELS + channel];
      var tail := source[(keep + index) * CHANNELS + channel];
      var mixed := Mix(head, tail, fades);
      assert mixed == Mixed(source, keep, blend, curve, index * CHANNELS + channel);
      if !Fits(mixed) {
        assert FrameHas(index, index * CHANNELS + channel);
        return true;
      }
      out[index * CHANNELS + channel] := mixed;
      channel := channel + 1;
    }
    return false;
  }

  predicate FrameHas(index: nat, at: int) {
    index * CHANNELS <= at < (index + 1) * CHANNELS
  }

  lemma SeamedParts(source: seq<int>, frames: nat, blend: nat, curve: Curve)
    requires frames * CHANNELS <= |source| && 2 * blend <= frames
    ensures var seamed, keep := Seamed(source, frames, blend, curve), frames - blend;
            && |seamed| == keep * CHANNELS
            && (forall at: nat :: at < blend * CHANNELS ==> seamed[at] == Mixed(source, keep, blend, curve, at))
            && (forall at: nat :: blend * CHANNELS <= at < |seamed| ==> seamed[at] == source[at])
  {
  }

  /** The blend is written over the copied start, frame by frame. A mixed sample that does not fit 16 bits
      ends it with an error. */
  method Seam(source: seq<int>, blendFrames: int, curve: Curve) returns (out: array<int>, overflow: bool)
    ensures var frames := |source| / CHANNELS;
            var blend := Blend(frames, blendFrames);
            var seamed := Seamed(source, frames, blend, curve);
            && out.Length == (frames - blend) * CHANNELS
            && (overflow <==> exists at :: 0 <= at < blend * CHANNELS && !Fits(seamed[at]))
            && (!overflow ==> out[..] == seamed)
            && (forall at :: blend * CHANNELS <= at < out.Length ==> out[at] == source[at])
  {
    var frames := |source| / CHANNELS;
    var blend := Blend(frames, blendFrames);
    var keep := frames - blend;
    out := new int[keep * CHANNELS](i requires 0 <= i < keep * CHANNELS => source[i]);
    overflow := false;
    ghost var seamed := Seamed(source, frames, blend, curve);
    SeamedParts(source, frames, blend, curve);
    hide Mixed, Fits, Seamed, Blend;
    var index := 0;
    while index < blend
      invariant 0 <= index <= blend
      invariant forall at: nat :: at < index * CHANNELS ==> out[at] == seamed[at] && Fits(seamed[at])
      invariant forall at: nat :: index * CHANNELS <= at < out.Length ==> out[at] == source[at]
    {
      overflow := MixFrame(out, source, keep, blend, index, curve);
      if overflow {
        ghost var bad: nat :| FrameHas(index, bad) && !Fits(Mixed(source, keep, blend, curve, bad));
        assert seamed[bad] == Mixed(source, keep, blend, curve, bad);
        return;
      }
      index := index + 1;
    }
  }

  // ----- The seam joins on -----

  function Size(x: real): real {
    if x < 0.0 then -x else x
  }

  /** As near as rounding allows once `slack` is put aside. */
  predicate Near(sample: int, other: int, slack: real) {
    Size(sample as real - other as real) <= slack + 0.5
  }

  /** The nearest whole number, and of two as near the even one. */
  lemma RoundIsNear(x: real)
    ensures Size(Round(x) as real - x) <= 0.5
    ensures Size(Round(x) as real - x) == 0.5 ==> Round(x) % 2 == 0
  {
  }

  lemma Rest(sample: int, fade: real)
    ensures Part(sample, 1.0 - fade) == sample as real - Part(sample, fade)
  {
  }

  /** From a rounded sum of two parts to either whole. */
  lemma Between(mixed: int, head: int, tail: int, in1: real, out1: real, in2: real, out2: real)
    requires mixed == Round(in1 + out1) && in2 == head as real - in1 && out2 == tail as real - out1
    ensures Near(mixed, tail, Size(in1) + Size(out2)) && Near(mixed, head, Size(in2) + Size(out1))
  {
    RoundIsNear(in1 + out1);
    hide Round;
  }

  /** How much of a sample a fade lets in. */
  function Share(sample: int, fade: real): real {
    Size(Part(sample, fade))
  }

  /** A mixed sample is the end's own as far as the start has not faded in and the end not out, and the start's
      own the other way round. */
  lemma MixIsBetween(head: int, tail: int, fades: (real, real))
    ensures var (fadeIn, fadeOut) := fades;
            && Near(Mix(head, tail, fades), tail, Share(head, fadeIn) + Share(tail, 1.0 - fadeOut))
            && Near(Mix(head, tail, fades), head, Share(head, 1.0 - fadeIn) + Share(tail, fadeOut))
  {
    hide Near, Size, Part;
    var (fadeIn, fadeOut) := fades;
    Rest(head, fadeIn);
    Rest(tail, fadeOut);
    Between(Mix(head, tail, fades), head, tail, Part(head, fadeIn), Part(tail, fadeOut), Part(head, 1.0 - fadeIn),
            Part(tail, 1.0 - fadeOut));
  }

  lemma MixedIs(source: seq<int>, keep: nat, blend: nat, curve: Curve, index: nat, channel: nat)
    requires index < blend && channel < CHANNELS && (keep + blend) * CHANNELS <= |source|
    ensures var at := index * CHANNELS + channel;
            Mixed(source, keep, blend, curve, at)
              == Mix(source[at], source[keep * CHANNELS + at], curve(index, blend))
  {
    hide Mix;
    assert (index * CHANNELS + channel) / CHANNELS == index;
  }

  /** The loop has no click: its last frame is the sound's own, and the frame it goes on with is, but for how
      far the curves have already come, the one that followed in the sound. Where the blend ends the samples
      are the sound's own start again, but for what is left of the curves. */
  lemma SeamJoinsOn(source: seq<int>, frames: nat, blend: nat, curve: Curve, channel: nat)
    requires frames * CHANNELS <= |source| && 0 < blend && 2 * blend <= frames && channel < CHANNELS
    ensures var seamed, keep := Seamed(source, frames, blend, curve), frames - blend;
            var end, last := keep * CHANNELS + channel, (blend - 1) * CHANNELS + channel;
            && |seamed| == keep * CHANNELS
            && (blend < keep ==> seamed[end - CHANNELS] == source[end - CHANNELS]
                                 && seamed[last + CHANNELS] == source[last + CHANNELS])
            && Near(seamed[channel], source[end],
                    Share(source[channel], curve(0, blend).0) + Share(source[end], 1.0 - curve(0, blend).1))
            && Near(seamed[last], source[last],
                    Share(source[last], 1.0 - curve(blend - 1, blend).0)
                    + Share(source[keep * CHANNELS + last], curve(blend - 1, blend).1))
  {
    hide Near, Share;
    var seamed, keep := Seamed(source, frames, blend, curve), frames - blend;
    var end, last := keep * CHANNELS + channel, (blend - 1) * CHANNELS + channel;
    SeamedParts(source, frames, blend, curve);
    MixedIs(source, keep, blend, curve, 0, channel);
    MixedIs(source, keep, blend, curve, blend - 1, channel);
    hide Seamed, Mix, Mixed;
    MixIsBetween(source[channel], source[end], curve(0, blend));
    MixIsBetween(source[last], source[keep * CHANNELS + last], curve(blend - 1, blend));
  }

  // ----- Loudness -----

  /** The loudest samples whose blend always fits, whatever the equal-power curves are. */
  const QUIET_ENOUGH: nat := 23170

  predicate Within(sample: int, peak: nat) {
    sample <= peak && -sample <= peak
  }

  lemma PowerBound(head: real, tail: real, fadeIn: real, fadeOut: real)
    requires fadeIn * fadeIn + fadeOut * fadeOut == 1.0
    ensures var x := head * fadeIn + tail * fadeOut;
            x * x <= head * head + tail * tail
  {
    var x, y := head * fadeIn + tail * fadeOut, head * fadeOut - tail * fadeIn;
    assert y * y >= 0.0;
    assert x * x + y * y == (head * head + tail * tail) * (fadeIn * fadeIn + fadeOut * fadeOut) by {
      Lagrange(head, tail, fadeIn, fadeOut);
    }
  }

  lemma Lagrange(a: real, b: real, c: real, d: real)
    ensures (a * c + b * d) * (a * c + b * d) + (a * d - b * c) * (a * d - b * c)
         == (a * a + b * b) * (c * c + d * d)
  {
  }

  lemma SquareAtMost(x: real, bound: real)
    requires bound >= 0.0 && x * x < bound * bound
    ensures -bound < x < bound
  {
    SquareGrows(x, bound);
    SquareGrows(-x, bound);
  }

  lemma SquareGrows(x: real, bound: real)
    ensures x >= bound >= 0.0 ==> x * x >= bound * bound
  {
  }

  lemma PeakSquare(sample: int, peak: nat)
    requires Within(sample, peak)
    ensures sample * sample <= peak * peak
  {
    if sample >= 0 {
      assert sample * sample <= peak * peak;
    } else {
      assert (-sample) * (-sample) <= peak * peak;
    }
  }

  lemma SquareAsReal(sample: int)
    ensures sample as real * sample as real == (sample * sample) as real
  {
  }

  lemma MixFits(head: int, tail: int, fades: (real, real))
    requires Within(head, QUIET_ENOUGH) && Within(tail, QUIET_ENOUGH)
    requires fades.0 * fades.0 + fades.1 * fades.1 == 1.0
    ensures Fits(Mix(head, tail, fades))
  {
    var x := head as real * fades.0 + tail as real * fades.1;
    PowerBound(head as real, tail as real, fades.0, fades.1);
    PeakSquare(head, QUIET_ENOUGH);
    PeakSquare(tail, QUIET_ENOUGH);
    SquareAsReal(head);
    SquareAsReal(tail);
    assert x * x <= 1073697800.0;
    SquareAtMost(x, 32767.5);
  }

  /** A sound that is quiet enough never ends its seam with an error. */
  lemma QuietSoundsHaveASeam(source: seq<int>, blendFrames: int, curve: Curve)
    requires EqualPower(curve)
    requires forall sample <- source :: Within(sample, QUIET_ENOUGH)
    ensures var frames := |source| / CHANNELS;
            forall sample <- Seamed(source, frames, Blend(frames, blendFrames), curve) :: Fits(sample)
  {
    var frames := |source| / CHANNELS;
    var blend := Blend(frames, blendFrames);
    var seamed := Seamed(source, frames, blend, curve);
    forall at | 0 <= at < |seamed| ensures Fits(seamed[at]) {
      assert source[at] in source;
      if at < blend * CHANNELS {
        assert source[(frames - blend) * CHANNELS + at] in source;
        MixFits(source[at], source[(frames - blend) * CHANNELS + at], curve(at / CHANNELS, blend));
      }
    }
  }

  /** In the middle of a blend both fades are the same. */
  lemma MiddleOverflows(fade: real)
    requires fade > 0.0 && fade * fade + fade * fade == 1.0
    ensures !Fits(Mix(QUIET_ENOUGH + 1, QUIET_ENOUGH + 1, (fade, fade)))
  {
    var x := 23171.0 * fade + 23171.0 * fade;
    assert x * x == 1073790482.0 by {
      assert x == 46342.0 * fade;
      assert x * x == 46342.0 * 46342.0 * (fade * fade);
    }
    SquareGrows(32768.0, x);
    assert 32768.0 * 32768.0 == 1073741824.0;
    assert x > 32768.0;
  }

  predicate AllWithin(source: seq<int>, peak: nat) {
    forall sample <- source :: Within(sample, peak)
  }

  /** The seam ends without an error. */
  predicate SeamFits(source: seq<int>, blendFrames: int, curve: Curve) {
    var frames := |source| / CHANNELS;
    forall sample <- Seamed(source, frames, Blend(frames, blendFrames), curve) :: Fits(sample)
  }

  /** Sounds as loud as `peak` always have a seam exactly when `peak` is at most 23170. A sound of two frames
      one louder already has none, whatever its curves are. */
  lemma AlwaysFitsExactlyWhenQuietEnough(peak: nat, curve: Curve)
    requires EqualPower(curve) && Mirrored(curve)
    ensures (forall source: seq<int>, blendFrames: int | AllWithin(source, peak) ::
               SeamFits(source, blendFrames, curve))
       <==> peak <= QUIET_ENOUGH
  {
    hide Seamed, EqualPower, Mirrored;
    if peak <= QUIET_ENOUGH {
      forall source: seq<int>, blendFrames: int | AllWithin(source, peak) ensures SeamFits(source, blendFrames, curve) {
        QuietSoundsHaveASeam(source, blendFrames, curve);
      }
    } else {
      var loud := QUIET_ENOUGH + 1;
      LoudSoundHasNone(curve);
      assert AllWithin([loud, loud, loud, loud], peak);
      assert !SeamFits([loud, loud, loud, loud], 1, curve);
    }
  }

  lemma LoudSoundHasNone(curve: Curve)
    requires EqualPower(curve) && Mirrored(curve)
    ensures var loud := QUIET_ENOUGH + 1; !SeamFits([loud, loud, loud, loud], 1, curve)
  {
    var loud := QUIET_ENOUGH + 1;
    var source := [loud, loud, loud, loud];
    assert curve(0, 1).0 == curve(1 - 1 - 0, 1).1;
    MiddleOverflows(curve(0, 1).0);
    var seamed := Seamed(source, 2, 1, curve);
    assert seamed[0] == Mix(loud, loud, curve(0, 1)) == Mix(loud, loud, (curve(0, 1).0, curve(0, 1).0));
    assert seamed[0] in seamed;
  }
}
