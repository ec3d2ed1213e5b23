/** Meeting capture on the host (packages/host/jarvis_host/meetings.py 64-90, 148-170, 173-235,
    280-346): bytes from the devices are buffered, converted to 16 kHz mono, mixed and handed out
    in chunks.

    `audioop.tomono` and `audioop.ratecv` work frame by frame, so they are given by what they do
    with one frame; the mixing of the converted tracks and the test for silence are parameters. */
module Capture {
  import opened Common

  type Byte = b: int | 0 <= b < 256

  /** One 16-bit sample. */
  type Sample = s: seq<Byte> | |s| == 2 witness [0, 0]

  const SAMPLE_WIDTH: nat := 2
  const MAX_BUFFER_S: nat := 600
  const TARGET_RATE: nat := 16000
  const MIN_CHUNK_S: nat := 1

  // ---- the buffer of a device ----

  function Last(s: seq<Byte>, n: nat): seq<Byte> {
    if |s| <= n then s else s[|s| - n..]
  }

  function Limit(rate: nat, channels: nat): nat { rate * channels * SAMPLE_WIDTH * MAX_BUFFER_S }

  /** Dropping the oldest bytes each time keeps the same bytes as dropping them once. */
  lemma LastOfLast(a: seq<Byte>, b: seq<Byte>, n: nat)
    ensures Last(Last(a, n) + b, n) == Last(a + b, n)
  {
    if |a| > n {
      assert Last(a, n) + b == (a + b)[|a| - n..];
    }
  }

  /** When whole frames come in, only whole frames are dropped: left never becomes right. */
  lemma DropsWholeFrames(fed: seq<Byte>, rate: nat, channels: nat, frames: nat)
    requires |fed| == frames * (channels * SAMPLE_WIDTH)
    ensures exists k: nat :: k <= frames && |Last(fed, Limit(rate, channels))| == k * (channels * SAMPLE_WIDTH)
  {
    var frame, kept := channels * SAMPLE_WIDTH, rate * MAX_BUFFER_S;
    assert Limit(rate, channels) == kept * frame;
    if |fed| > Limit(rate, channels) {
      assert frames <= kept ==> frames * frame <= kept * frame;
      assert |Last(fed, Limit(rate, channels))| == kept * frame;
    } else {
      assert |Last(fed, Limit(rate, channels))| == frames * frame;
    }
  }

  class Buffered {
    const rate: nat
    const channels: nat
    var buf: seq<Byte>
    /** Everything the device delivered since the last read. */
    ghost var fed: seq<Byte>

    ghost predicate Valid()
      reads this
    {
      buf == Last(fed, Limit(rate, channels))
    }

    constructor (rate: nat, channels: nat)
      ensures Valid() && this.rate == rate && this.channels == channels && fed == []
    {
      this.rate, this.channels, buf, fed := rate, channels, [], [];
    }

    method Feed(data: seq<Byte>)
      requires Valid()
      modifies this
      ensures Valid() && fed == old(fed) + data
    {
      LastOfLast(fed, data, Limit(rate, channels));
      var limit := rate * channels * SAMPLE_WIDTH * MAX_BUFFER_S;
      buf := buf + data;
      if |buf| > limit {
        buf := buf[|buf| - limit..];
      }
      fed := fed + data;
    }

    /** What has arrived since the last read, or the newest ten minutes of it. */
    method Read() returns (data: seq<Byte>)
      requires Valid()
      modifies this
      ensures var n := 1200 * rate * channels;
              data == if |old(fed)| > n then old(fed)[|old(fed)| - n..] else old(fed)
      ensures Valid() && fed == []
    {
      data, buf, fed := buf, [], [];
    }
  }

  // ---- conversion ----

  /** A resampler's state after some input, and what came out. */
  datatype Run<+S> = Run(state: S, out: seq<Byte>)

  /** `mix` makes one sample of a stereo frame, `step` is the rate converter fed one sample. */
  datatype Converter<!S> = Converter(
    rate: nat,
    channels: nat,
    mix: (Sample, Sample) -> Sample,
    step: (S, Sample) -> Run<S>
  )

  datatype Stream<+S> = Stream(state: S, remainder: seq<Byte>)

  function FrameSize<S>(c: Converter<S>): nat { SAMPLE_WIDTH * c.channels }

  function ToMono(pcm: seq<Byte>, mix: (Sample, Sample) -> Sample): (r: seq<Byte>) {
    if |pcm| < 4 then [] else mix(pcm[..2], pcm[2..4]) + ToMono(pcm[4..], mix)
  }

  function RateCv<S>(pcm: seq<Byte>, s: S, step: (S, Sample) -> Run<S>): Run<S> {
    if |pcm| < 2 then Run(s, [])
    else
      var first := step(s, pcm[..2]);
      var rest := RateCv(pcm[2..], first.state, step);
      Run(rest.state, first.out + rest.out)
  }

  function Resampled<S>(c: Converter<S>, s: S, pcm: seq<Byte>): Run<S> {
    var mono := if c.channels == 2 then ToMono(pcm, c.mix) else pcm;
    if c.rate == TARGET_RATE then Run(s, mono) else RateCv(mono, s, c.step)
  }

  /** The bytes of `pcm` that make whole frames. */
  function Usable<S>(c: Converter<S>, pcm: seq<Byte>): (n: nat)
    requires c.channels > 0
    ensures n <= |pcm| && |pcm| - n < FrameSize(c)
  {
    |pcm| - |pcm| % FrameSize(c)
  }

  /** Conversion of all the input there will ever be: the whole frames converted in one go. */
  function Converted<S>(c: Converter<S>, t: Stream<S>, pcm: seq<Byte>): (Stream<S>, seq<Byte>)
    requires c.channels > 0
  {
    var all := t.remainder + pcm;
    var n := Usable(c, all);
    var run := Resampled(c, t.state, all[..n]);
    (Stream(run.state, all[n..]), run.out)
  }

  /** What a conversion yields: the whole frames, a stereo frame mixed to one sample, and every sample fed
      to the rate converter unless the rate is 16 kHz already; what is less than a frame is carried over. */
  lemma ConversionIs<S>(c: Converter<S>, t: Stream<S>, pcm: seq<Byte>)
    requires c.channels > 0
    ensures var all := t.remainder + pcm;
            var (next, out) := Converted(c, t, pcm);
            var n := |all| - |next.remainder|;
            && 0 <= |next.remainder| < 2 * c.channels && n >= 0 && n % (2 * c.channels) == 0 && all[n..] == next.remainder
            && (c.channels != 2 && c.rate == 16000 ==> out == all[..n] && next.state == t.state)
            && (c.channels != 2 && c.rate != 16000 ==> Run(next.state, out) == RateCv(all[..n], t.state, c.step))
            && (c.channels == 2 && c.rate == 16000 ==> out == ToMono(all[..n], c.mix) && next.state == t.state)
            && (c.channels == 2 && c.rate != 16000 ==> Run(next.state, out) == RateCv(ToMono(all[..n], c.mix), t.state, c.step))
  {
    var all := t.remainder + pcm;
    ModUnique(Usable(c, all), FrameSize(c), |all| / FrameSize(c), 0);
  }

  /** Sample k of the mono track is the mix of frame k. */
  lemma {:induction false} ToMonoAt(pcm: seq<Byte>, mix: (Sample, Sample) -> Sample, k: nat)
    requires 4 * k + 4 <= |pcm|
    ensures 2 * k + 2 <= |ToMono(pcm, mix)| == 2 * (|pcm| / 4)
    ensures ToMono(pcm, mix)[2 * k..2 * k + 2] == mix(pcm[4 * k..4 * k + 2], pcm[4 * k + 2..4 * k + 4])
    decreases k
  {
    ToMonoSize(pcm, mix);
    var rest := pcm[4..];
    assert ToMono(pcm, mix) == mix(pcm[..2], pcm[2..4]) + ToMono(rest, mix);
    if k > 0 {
      ToMonoAt(rest, mix, k - 1);
      assert rest[4 * (k - 1)..4 * (k - 1) + 2] == pcm[4 * k..4 * k + 2];
      assert rest[4 * (k - 1) + 2..4 * (k - 1) + 4] == pcm[4 * k + 2..4 * k + 4];
      assert ToMono(pcm, mix)[2 * k..2 * k + 2] == ToMono(rest, mix)[2 * (k - 1)..2 * (k - 1) + 2];
    }
  }

  lemma {:induction false} ToMonoSize(pcm: seq<Byte>, mix: (Sample, Sample) -> Sample)
    ensures |ToMono(pcm, mix)| == 2 * (|pcm| / 4)
  {
    if |pcm| >= 4 {
      ToMonoSize(pcm[4..], mix);
    }
  }

  lemma {:induction false} ToMonoAppend(a: seq<Byte>, b: seq<Byte>, mix: (Sample, Sample) -> Sample)
    requires |a| % 4 == 0
    ensures ToMono(a + b, mix) == ToMono(a, mix) + ToMono(b, mix)
    ensures |ToMono(a, mix)| % 2 == 0
    decreases |a|
  {
    if |a| < 4 {
      assert a + b == b;
    } else {
      assert (a + b)[..2] == a[..2] && (a + b)[2..4] == a[2..4] && (a + b)[4..] == a[4..] + b;
      ToMonoAppend(a[4..], b, mix);
    }
  }

  lemma {:induction false} RateCvAppend<S>(a: seq<Byte>, b: seq<Byte>, s: S, step: (S, Sample) -> Run<S>)
    requires |a| % 2 == 0
    ensures var first := RateCv(a, s, step);
            var second := RateCv(b, first.state, step);
            RateCv(a + b, s, step) == Run(second.state, first.out + second.out)
    decreases |a|
  {
    if |a| < 2 {
      assert a + b == b;
    } else {
      assert (a + b)[..2] == a[..2] && (a + b)[2..] == a[2..] + b;
      RateCvAppend(a[2..], b, step(s, a[..2]).state, step);
    }
  }

  lemma ResampledAppend<S>(c: Converter<S>, s: S, a: seq<Byte>, b: seq<Byte>)
    requires c.channels > 0 && |a| % FrameSize(c) == 0
    ensures var first := Resampled(c, s, a);
            var second := Resampled(c, first.state, b);
            Resampled(c, s, a + b) == Run(second.state, first.out + second.out)
  {
    if c.channels == 2 {
      ToMonoAppend(a, b, c.mix);
      RateCvAppend(ToMono(a, c.mix), ToMono(b, c.mix), s, c.step);
    } else {
      EvenMultiple(|a|, c.channels);
      RateCvAppend(a, b, s, c.step);
    }
  }

  lemma EvenMultiple(n: nat, k: nat)
    requires k > 0 && n % (SAMPLE_WIDTH * k) == 0
    ensures n % 2 == 0
  {
    var q := n / (2 * k);
    assert n == 2 * k * q == 2 * (k * q);
  }

  lemma ModAdd(a: nat, b: nat, m: nat)
    requires m > 0 && a % m == 0
    ensures (a + b) % m == b % m
  {
    var q, r := a / m, b / m;
    assert a + b == m * (q + r) + b % m;
    ModUnique(a + b, m, q + r, b % m);
  }

  lemma ModUnique(n: nat, m: nat, q: int, r: nat)
    requires m > 0 && n == m * q + r && r < m
    ensures n % m == r
  {
    var q1 := n / m;
    MulDifference(m, q1, q);
    if q1 > q {
      AtLeastOne(m, q1 - q);
    } else if q1 < q {
      AtLeastOne(m, q - q1);
    }
  }

  lemma MulDifference(m: int, a: int, b: int)
    ensures m * a - m * b == m * (a - b) == -(m * (b - a))
  {
  }

  lemma AtLeastOne(m: nat, d: nat)
    requires d >= 1
    ensures m * d >= m
  {
  }

  /** Converting in two parts is converting the whole: no sample at a seam is lost, doubled or
      shifted, and the remainder carried over is the same. */
  lemma ConvertedInParts<S>(c: Converter<S>, t: Stream<S>, a: seq<Byte>, b: seq<Byte>)
    requires c.channels > 0
    ensures var (t1, o1) := Converted(c, t, a);
            var (t2, o2) := Converted(c, t1, b);
            Converted(c, t, a + b) == (t2, o1 + o2)
  {
    var all := t.remainder + a;
    var n := Usable(c, all);
    var (t1, o1) := Converted(c, t, a);
    var rest := all[n..] + b;
    var m := Usable(c, rest);
    assert t.remainder + (a + b) == all[..n] + rest;
    assert n % FrameSize(c) == 0 by {
      ModUnique(n, FrameSize(c), |all| / FrameSize(c), 0);
    }
    ModAdd(n, |rest|, FrameSize(c));
    assert Usable(c, t.remainder + (a + b)) == n + m;
    assert (all[..n] + rest)[..n + m] == all[..n] + rest[..m];
    assert (all[..n] + rest)[n + m..] == rest[m..];
    ResampledAppend(c, t.state, all[..n], rest[..m]);
  }

  function ConvertedEach<S>(c: Converter<S>, t: Stream<S>, parts: seq<seq<Byte>>): (Stream<S>, seq<Byte>)
    requires c.channels > 0
    decreases |parts|
  {
    if parts == [] then (t, [])
    else
      var (t1, o1) := Converted(c, t, parts[0]);
      var (t2, o2) := ConvertedEach(c, t1, parts[1..]);
      (t2, o1 + o2)
  }

  /** However the input is cut into reads, the output is that of converting it in one piece. */
  lemma {:induction false} AnySplitConvertsTheSame<S>(c: Converter<S>, t: Stream<S>, parts: seq<seq<Byte>>)
    requires c.channels > 0 && |t.remainder| < FrameSize(c)
    ensures ConvertedEach(c, t, parts) == Converted(c, t, Concat(parts))
    decreases |parts|
  {
    if parts == [] {
      NothingConverts(c, t);
    } else {
      var t1 := Converted(c, t, parts[0]).0;
      ConvertedInParts(c, t, parts[0], Concat(parts[1..]));
      AnySplitConvertsTheSame(c, t1, parts[1..]);
    }
  }

  lemma NothingConverts<S>(c: Converter<S>, t: Stream<S>)
    requires c.channels > 0 && |t.remainder| < FrameSize(c)
    ensures Converted(c, t, []) == (t, [])
  {
    assert t.remainder + [] == t.remainder;
    ModUnique(|t.remainder|, FrameSize(c), 0, |t.remainder|);
    assert t.remainder[..0] == [] && t.remainder[0..] == t.remainder;
  }

  class Resampler<S> {
    const c: Converter<S>
    var state: S
    var remainder: seq<Byte>

    ghost predicate Valid()
      reads this
    {
      c.channels > 0 && |remainder| < FrameSize(c)
    }

    constructor (c: Converter<S>, start: S)
      requires c.channels > 0
      ensures Valid() && this.c == c && state == start && remainder == []
    {
      this.c, state, remainder := c, start, [];
    }

    method Convert(pcm: seq<Byte>) returns (out: seq<Byte>)
      requires Valid()
      modifies this
      ensures Valid() && (Stream(state, remainder), out) == Converted(c, old(Stream(state, remainder)), pcm)
    {
      NothingConverts(c, Stream(state, remainder));
      if pcm == [] {
        return [];
      }
      var all := remainder + pcm;
      var usable := Usable(c, all);
      remainder := all[usable..];
      var whole := all[..usable];
      if whole == [] {
        return [];
      }
      var mono := if c.channels == 2 then ToMono(whole, c.mix) else whole;
      if c.rate == TARGET_RATE {
        return mono;
      }
      var run := RateCv(mono, state, c.step);
      state, out := run.state, run.out;
    }
  }
}

/** The recording of one meeting and the reply to each pull. */
module Recorder {
  import opened Common
  import opened Capture

  /** A chunk handed out, or a stretch of silence dropped; times in frames at 16 kHz. */
  datatype Piece =
    | Chunk(seqNo: nat, t0: nat, t1: nat, pcm: seq<Byte>)
    | Silence(t0: nat, t1: nat, pcm: seq<Byte>)

  /** `pieces` and `mixed` are history: all that was taken off the tape and all that was put on it. */
  datatype Tape = Tape(
    seqNo: nat,
    emitted: nat,
    silent: nat,
    pending: seq<Byte>,
    pieces: seq<Piece>,
    mixed: seq<Byte>
  )

  function Blank(): Tape { Tape(0, 0, 0, [], [], []) }

  datatype Take = Take(mixed: seq<Byte>, final: bool)

  predicate TooShort(frames: nat, final: bool) {
    frames == 0 || (!final && frames < MIN_CHUNK_S * TARGET_RATE)
  }

  function Taken(s: Tape, take: Take, quiet: seq<Byte> -> bool): Tape {
    var pcm := s.pending + take.mixed;
    var frames := |pcm| / SAMPLE_WIDTH;
    var t := s.(mixed := s.mixed + take.mixed);
    if TooShort(frames, take.final) then t.(pending := pcm)
    else if quiet(pcm) then
      t.(pending := [], emitted := s.emitted + frames, silent := s.silent + frames,
         pieces := s.pieces + [Silence(s.emitted, s.emitted + frames, pcm)])
    else
      t.(pending := [], emitted := s.emitted + frames, seqNo := s.seqNo + 1,
         pieces := s.pieces + [Chunk(s.seqNo + 1, s.emitted, s.emitted + frames, pcm)])
  }

  // ---- the invariant ----

  function Audio(pieces: seq<Piece>): seq<Byte> {
    if pieces == [] then [] else Audio(pieces[..|pieces| - 1]) + pieces[|pieces| - 1].pcm
  }

  function Frames(pieces: seq<Piece>): nat {
    if pieces == [] then 0 else Frames(pieces[..|pieces| - 1]) + |pieces[|pieces| - 1].pcm| / SAMPLE_WIDTH
  }

  function SilentFrames(pieces: seq<Piece>): nat {
    if pieces == [] then 0
    else
      var last := pieces[|pieces| - 1];
      SilentFrames(pieces[..|pieces| - 1]) + if last.Silence? then |last.pcm| / SAMPLE_WIDTH else 0
  }

  function Chunks(pieces: seq<Piece>): (r: seq<Piece>) {
    if pieces == [] then []
    else
      var last := pieces[|pieces| - 1];
      Chunks(pieces[..|pieces| - 1]) + if last.Chunk? then [last] else []
  }

  /** Each piece begins at the frame where those before it end, and holds exactly its frames. */
  predicate InPlace(pieces: seq<Piece>) {
    forall k :: 0 <= k < |pieces| ==> StandsAt(pieces[k], Frames(pieces[..k]))
  }

  predicate StandsAt(p: Piece, at: nat) {
    p.t0 == at && p.t1 == at + |p.pcm| / SAMPLE_WIDTH && p.t0 < p.t1
  }

  predicate Numbered(chunks: seq<Piece>) {
    forall k :: 0 <= k < |chunks| ==> chunks[k].Chunk? && chunks[k].seqNo == k + 1
  }

  /** Only silence is dropped, and no silence is handed out. */
  predicate Sorted(pieces: seq<Piece>, quiet: seq<Byte> -> bool) {
    forall k :: 0 <= k < |pieces| ==> (pieces[k].Silence? <==> quiet(pieces[k].pcm))
  }

  predicate Inv(s: Tape, quiet: seq<Byte> -> bool) {
    && Audio(s.pieces) + s.pending == s.mixed
    && s.emitted == Frames(s.pieces) && s.silent == SilentFrames(s.pieces)
    && InPlace(s.pieces) && Sorted(s.pieces, quiet)
    && |Chunks(s.pieces)| == s.seqNo && Numbered(Chunks(s.pieces))
  }

  lemma TakeKeepsInv(s: Tape, take: Take, quiet: seq<Byte> -> bool)
    requires Inv(s, quiet)
    ensures Inv(Taken(s, take, quiet), quiet)
  {
    if TooShort(|s.pending + take.mixed| / SAMPLE_WIDTH, take.final) {
      Regroup(Audio(s.pieces), s.pending, take.mixed);
    } else {
      var p := TakenIs(s, take, quiet);
      PieceKeepsInv(s, take.mixed, p, quiet);
    }
  }

  lemma TakenIs(s: Tape, take: Take, quiet: seq<Byte> -> bool) returns (p: Piece)
    requires !TooShort(|s.pending + take.mixed| / SAMPLE_WIDTH, take.final)
    ensures Taken(s, take, quiet) == WithPiece(s, take.mixed, p)
    ensures p.pcm == s.pending + take.mixed && StandsAt(p, s.emitted)
    ensures (p.Silence? <==> quiet(p.pcm)) && (p.Chunk? ==> p.seqNo == s.seqNo + 1)
  {
    var pcm := s.pending + take.mixed;
    var end := s.emitted + |pcm| / SAMPLE_WIDTH;
    p := if quiet(pcm) then Silence(s.emitted, end, pcm) else Chunk(s.seqNo + 1, s.emitted, end, pcm);
  }

  /** A piece more on record, and nothing pending. */
  function WithPiece(s: Tape, mixed: seq<Byte>, p: Piece): Tape {
    var frames := |p.pcm| / SAMPLE_WIDTH;
    Tape(s.seqNo + if p.Chunk? then 1 else 0, s.emitted + frames, s.silent + if p.Silence? then frames else 0, [],
         s.pieces + [p], s.mixed + mixed)
  }

  lemma PieceKeepsInv(s: Tape, mixed: seq<Byte>, p: Piece, quiet: seq<Byte> -> bool)
    requires Inv(s, quiet) && p.pcm == s.pending + mixed && StandsAt(p, s.emitted)
    requires (p.Silence? <==> quiet(p.pcm)) && (p.Chunk? ==> p.seqNo == s.seqNo + 1)
    ensures Inv(WithPiece(s, mixed, p), quiet)
  {
    var t := WithPiece(s, mixed, p);
    OnePieceMore(s.pieces, p);
    StandsInPlace(s.pieces, p);
    Regroup(Audio(s.pieces), s.pending, mixed);
    assert Audio(t.pieces) + [] == Audio(t.pieces);
    StaysSorted(s.pieces, p, quiet);
    StaysNumbered(Chunks(s.pieces), p);
  }

  lemma StaysSorted(pieces: seq<Piece>, p: Piece, quiet: seq<Byte> -> bool)
    requires Sorted(pieces, quiet) && (p.Silence? <==> quiet(p.pcm))
    ensures Sorted(pieces + [p], quiet)
  {
  }

  lemma StaysNumbered(chunks: seq<Piece>, p: Piece)
    requires Numbered(chunks) && (p.Chunk? ==> p.seqNo == |chunks| + 1)
    ensures Numbered(chunks + if p.Chunk? then [p] else [])
  {
  }

  lemma OnePieceMore(pieces: seq<Piece>, last: Piece)
    ensures Audio(pieces + [last]) == Audio(pieces) + last.pcm
    ensures Frames(pieces + [last]) == Frames(pieces) + |last.pcm| / SAMPLE_WIDTH
    ensures SilentFrames(pieces + [last]) == SilentFrames(pieces) + if last.Silence? then |last.pcm| / SAMPLE_WIDTH else 0
    ensures Chunks(pieces + [last]) == Chunks(pieces) + if last.Chunk? then [last] else []
  {
    assert (pieces + [last])[..|pieces|] == pieces;
  }

  lemma StandsInPlace(pieces: seq<Piece>, last: Piece)
    requires InPlace(pieces) && StandsAt(last, Frames(pieces))
    ensures InPlace(pieces + [last])
  {
    var more := pieces + [last];
    forall k | 0 <= k < |more| ensures StandsAt(more[k], Frames(more[..k])) {
      if k < |pieces| {
        assert more[..k] == pieces[..k] && StandsAt(pieces[k], Frames(pieces[..k]));
      } else {
        assert more[..k] == pieces;
      }
    }
  }

  function After(s: Tape, takes: seq<Take>, quiet: seq<Byte> -> bool): Tape
    decreases |takes|
  {
    if takes == [] then s else After(Taken(s, takes[0], quiet), takes[1..], quiet)
  }

  lemma {:induction false} RunKeepsInv(s: Tape, takes: seq<Take>, quiet: seq<Byte> -> bool)
    requires Inv(s, quiet)
    ensures Inv(After(s, takes, quiet), quiet)
    decreases |takes|
  {
    if takes == [] {
    } else {
      TakeKeepsInv(s, takes[0], quiet);
      RunKeepsInv(Taken(s, takes[0], quiet), takes[1..], quiet);
    }
  }

  /** All that the takes bring, in order. */
  function MixedIn(takes: seq<Take>): seq<Byte> {
    if takes == [] then [] else takes[0].mixed + MixedIn(takes[1..])
  }

  lemma {:induction false} AllIsTaken(s: Tape, takes: seq<Take>, quiet: seq<Byte> -> bool)
    ensures After(s, takes, quiet).mixed == s.mixed + MixedIn(takes)
    decreases |takes|
  {
    if takes == [] {
    } else {
      AllIsTaken(Taken(s, takes[0], quiet), takes[1..], quiet);
      Regroup(s.mixed, takes[0].mixed, MixedIn(takes[1..]));
    }
  }

  /** Over any run of pulls nothing mixed is lost: the chunks and the dropped silences in order,
      then what is pending, are all the audio; the chunks are numbered 1, 2, 3, ... and the two
      counters are right. */
  lemma NothingIsLost(takes: seq<Take>, quiet: seq<Byte> -> bool)
    ensures var s := After(Blank(), takes, quiet);
            && Audio(s.pieces) + s.pending == MixedIn(takes)
            && |Chunks(s.pieces)| == s.seqNo && Numbered(Chunks(s.pieces))
            && s.emitted == Frames(s.pieces) && s.silent == SilentFrames(s.pieces)
            && Sorted(s.pieces, quiet)
  {
    RunKeepsInv(Blank(), takes, quiet);
    AllIsTaken(Blank(), takes, quiet);
  }

  // ---- the timeline ----

  lemma {:induction false} FramesBetween(pieces: seq<Piece>, i: nat, j: nat)
    requires i <= j <= |pieces|
    ensures Frames(pieces[..j]) == Frames(pieces[..i]) + Frames(pieces[i..j])
    decreases j
  {
    if i == j {
      assert pieces[i..j] == [];
    } else {
      FramesBetween(pieces, i, j - 1);
      assert pieces[..j][..j - 1] == pieces[..j - 1] && pieces[i..j][..j - 1 - i] == pieces[i..j - 1];
    }
  }

  lemma FramesUpTo(pieces: seq<Piece>, i: nat)
    requires i < |pieces|
    ensures Frames(pieces[..i + 1]) == Frames(pieces[..i]) + |pieces[i].pcm| / SAMPLE_WIDTH
  {
    assert pieces[..i + 1][..i] == pieces[..i];
  }

  lemma {:induction false} AllSilent(pieces: seq<Piece>)
    requires forall k :: 0 <= k < |pieces| ==> pieces[k].Silence?
    ensures Frames(pieces) == SilentFrames(pieces)
  {
    if pieces == [] {
    } else {
      AllSilent(pieces[..|pieces| - 1]);
    }
  }

  /** Two chunks with only silence between them are apart by exactly that silence, and no two
      pieces overlap. */
  lemma GapsAreSilence(s: Tape, quiet: seq<Byte> -> bool, i: nat, j: nat)
    requires Inv(s, quiet) && i < j < |s.pieces|
    ensures s.pieces[j].t0 - s.pieces[i].t1 == Frames(s.pieces[i + 1..j]) >= 0
    ensures (forall k :: i < k < j ==> s.pieces[k].Silence?) ==>
              s.pieces[j].t0 - s.pieces[i].t1 == SilentFrames(s.pieces[i + 1..j])
  {
    GapIs(s.pieces, i, j);
    if forall k :: i < k < j ==> s.pieces[k].Silence? {
      AllSilent(s.pieces[i + 1..j]);
    }
  }

  lemma GapIs(pieces: seq<Piece>, i: nat, j: nat)
    requires InPlace(pieces) && i < j < |pieces|
    ensures pieces[j].t0 - pieces[i].t1 == Frames(pieces[i + 1..j])
  {
    FramesBetween(pieces, i + 1, j);
    FramesUpTo(pieces, i);
    assert StandsAt(pieces[i], Frames(pieces[..i])) && StandsAt(pieces[j], Frames(pieces[..j]));
  }

  /** Whole samples in, whole samples out. */
  predicate WholeSamples(takes: seq<Take>) {
    forall k :: 0 <= k < |takes| ==> |takes[k].mixed| % SAMPLE_WIDTH == 0
  }

  predicate Even(s: Tape) {
    |s.pending| % SAMPLE_WIDTH == 0 && forall k :: 0 <= k < |s.pieces| ==> |s.pieces[k].pcm| % SAMPLE_WIDTH == 0
  }

  lemma TakeStaysEven(s: Tape, take: Take, quiet: seq<Byte> -> bool)
    requires Even(s) && |take.mixed| % SAMPLE_WIDTH == 0
    ensures Even(Taken(s, take, quiet))
    ensures take.final ==> Taken(s, take, quiet).pending == []
  {
  }

  lemma {:induction false} RunStaysEven(s: Tape, takes: seq<Take>, quiet: seq<Byte> -> bool)
    requires Even(s) && WholeSamples(takes)
    ensures Even(After(s, takes, quiet))
    decreases |takes|
  {
    if takes == [] {
    } else {
      TakeStaysEven(s, takes[0], quiet);
      RunStaysEven(Taken(s, takes[0], quiet), takes[1..], quiet);
    }
  }

  lemma {:induction false} AudioOf(pieces: seq<Piece>, k: nat)
    requires k < |pieces| && forall i :: 0 <= i < |pieces| ==> |pieces[i].pcm| % SAMPLE_WIDTH == 0
    ensures |Audio(pieces)| == SAMPLE_WIDTH * Frames(pieces)
    ensures var at := SAMPLE_WIDTH * Frames(pieces[..k]);
            at + |pieces[k].pcm| <= |Audio(pieces)| && Audio(pieces)[at..at + |pieces[k].pcm|] == pieces[k].pcm
    decreases |pieces|
  {
    var n := |pieces| - 1;
    var front, last := pieces[..n], pieces[n].pcm;
    AudioIsWhole(front);
    assert Audio(pieces) == Audio(front) + last;
    assert Frames(pieces) == Frames(front) + |last| / SAMPLE_WIDTH;
    if k < n {
      AudioOf(front, k);
      assert front[..k] == pieces[..k] && front[k] == pieces[k];
      SliceOfFront(Audio(front), last, SAMPLE_WIDTH * Frames(pieces[..k]), |pieces[k].pcm|);
    }
  }

  lemma {:induction false} AudioIsWhole(pieces: seq<Piece>)
    requires forall i :: 0 <= i < |pieces| ==> |pieces[i].pcm| % SAMPLE_WIDTH == 0
    ensures |Audio(pieces)| == SAMPLE_WIDTH * Frames(pieces)
  {
    if pieces == [] {
    } else {
      AudioIsWhole(pieces[..|pieces| - 1]);
    }
  }

  lemma SliceOfFront<T>(a: seq<T>, b: seq<T>, at: nat, n: nat)
    requires at + n <= |a|
    ensures (a + b)[at..at + n] == a[at..at + n]
  {
  }

  /** The times are true: a chunk holds exactly the mixed audio from its `t0` to its `t1`, however
      much silence was dropped before it. */
  lemma ChunksAreOnTime(takes: seq<Take>, quiet: seq<Byte> -> bool, k: nat)
    requires WholeSamples(takes) && k < |After(Blank(), takes, quiet).pieces|
    ensures var p := After(Blank(), takes, quiet).pieces[k];
            && 2 * p.t0 <= 2 * p.t1 <= |MixedIn(takes)|
            && p.pcm == MixedIn(takes)[2 * p.t0..2 * p.t1]
  {
    var s := EvenRun(takes, quiet);
    PieceOnTime(s, quiet, k);
  }

  lemma PieceOnTime(s: Tape, quiet: seq<Byte> -> bool, k: nat)
    requires Inv(s, quiet) && Even(s) && k < |s.pieces|
    ensures var p := s.pieces[k];
            2 * p.t0 <= 2 * p.t1 <= |s.mixed| && p.pcm == s.mixed[2 * p.t0..2 * p.t1]
  {
    AudioOf(s.pieces, k);
    assert StandsAt(s.pieces[k], Frames(s.pieces[..k]));
    SliceOfFront(Audio(s.pieces), s.pending, 2 * s.pieces[k].t0, |s.pieces[k].pcm|);
  }

  /** The last take leaves nothing behind: every sample is in a chunk or in a dropped silence. */
  lemma StopDrains(takes: seq<Take>, last: seq<Byte>, quiet: seq<Byte> -> bool)
    requires WholeSamples(takes) && |last| % SAMPLE_WIDTH == 0
    ensures var s := Taken(After(Blank(), takes, quiet), Take(last, true), quiet);
            s.pending == [] && Audio(s.pieces) == MixedIn(takes) + last && 2 * s.emitted == |MixedIn(takes)| + |last|
  {
    var s := EvenRun(takes, quiet);
    LastTakeDrains(s, last, quiet);
  }

  lemma EvenRun(takes: seq<Take>, quiet: seq<Byte> -> bool) returns (s: Tape)
    requires WholeSamples(takes)
    ensures s == After(Blank(), takes, quiet) && Inv(s, quiet) && Even(s) && s.mixed == MixedIn(takes)
  {
    s := After(Blank(), takes, quiet);
    AllIsTaken(Blank(), takes, quiet);
    RunKeepsInv(Blank(), takes, quiet);
    RunStaysEven(Blank(), takes, quiet);
  }

  lemma LastTakeDrains(s: Tape, last: seq<Byte>, quiet: seq<Byte> -> bool)
    requires Inv(s, quiet) && Even(s) && |last| % SAMPLE_WIDTH == 0
    ensures var t := Taken(s, Take(last, true), quiet);
            t.pending == [] && Audio(t.pieces) == t.mixed == s.mixed + last && 2 * t.emitted == |t.mixed|
  {
    TakeKeepsInv(s, Take(last, true), quiet);
    TakeStaysEven(s, Take(last, true), quiet);
    var t := Taken(s, Take(last, true), quiet);
    AudioOfAll(t.pieces);
    assert Audio(t.pieces) + [] == Audio(t.pieces);
  }

  lemma AudioOfAll(pieces: seq<Piece>)
    requires forall i :: 0 <= i < |pieces| ==> |pieces[i].pcm| % SAMPLE_WIDTH == 0
    ensures |Audio(pieces)| == SAMPLE_WIDTH * Frames(pieces)
  {
    if pieces == [] {
    } else {
      AudioOf(pieces, 0);
    }
  }

  /** Pulls hand out or drop nothing shorter than a second, and hold back less than one. */
  predicate SecondsLong(s: Tape) {
    && |s.pending| / 2 < 16000
    && forall k :: 0 <= k < |s.pieces| ==> |s.pieces[k].pcm| / 2 >= 16000
  }

  lemma {:induction false} PullsAreSecondsLong(s: Tape, takes: seq<Take>, quiet: seq<Byte> -> bool)
    requires SecondsLong(s) && forall k :: 0 <= k < |takes| ==> !takes[k].final
    ensures SecondsLong(After(s, takes, quiet))
    decreases |takes|
  {
    if takes == [] {
    } else {
      assert !takes[0].final;
      PullsAreSecondsLong(Taken(s, takes[0], quiet), takes[1..], quiet);
    }
  }

  // ---- what the caller gets ----

  /** The chunks in the reply to a pull that asks for what comes after `afterSeq`. */
  function Reply(s: Tape, take: Take, afterSeq: int, quiet: seq<Byte> -> bool): seq<Piece> {
    var t := Taken(s, take, quiet);
    if t.seqNo > s.seqNo && t.seqNo > afterSeq then [t.pieces[|t.pieces| - 1]] else []
  }

  /** A pull loses the chunk it makes exactly when the caller claims to have had its number: the
      chunk is not kept for later. */
  lemma PullWithholds(s: Tape, take: Take, afterSeq: int, quiet: seq<Byte> -> bool)
    requires Inv(s, quiet)
    ensures Chunks(Taken(s, take, quiet).pieces) == Chunks(s.pieces) + Reply(s, take, afterSeq, quiet) <==>
            (afterSeq <= s.seqNo || Taken(s, take, quiet).seqNo == s.seqNo)
  {
    var t := Taken(s, take, quiet);
    assert t.pieces != s.pieces ==> t.pieces[..|s.pieces|] == s.pieces;
    assert Chunks(s.pieces) + [] == Chunks(s.pieces);
  }

  datatype Pull = Pull(take: Take, afterSeq: int)

  /** All the chunks a caller receives. */
  function Received(s: Tape, pulls: seq<Pull>, quiet: seq<Byte> -> bool): seq<Piece>
    decreases |pulls|
  {
    if pulls == [] then []
    else
      Reply(s, pulls[0].take, pulls[0].afterSeq, quiet)
      + Received(Taken(s, pulls[0].take, quiet), pulls[1..], quiet)
  }

  function Takes(pulls: seq<Pull>): seq<Take> {
    if pulls == [] then [] else [pulls[0].take] + Takes(pulls[1..])
  }

  /** Each pull asks for what comes after a number already handed out. */
  predicate Honest(s: Tape, pulls: seq<Pull>, quiet: seq<Byte> -> bool)
    decreases |pulls|
  {
    pulls != [] ==>
      pulls[0].afterSeq <= s.seqNo && Honest(Taken(s, pulls[0].take, quiet), pulls[1..], quiet)
  }

  /** A caller that never claims more than it was given receives every chunk, once and in order. */
  lemma {:induction false} HonestCallersGetAll(s: Tape, pulls: seq<Pull>, quiet: seq<Byte> -> bool)
    requires Inv(s, quiet) && Honest(s, pulls, quiet)
    ensures Chunks(After(s, Takes(pulls), quiet).pieces) == Chunks(s.pieces) + Received(s, pulls, quiet)
    decreases |pulls|
  {
    if pulls != [] {
      var pull := pulls[0];
      var t := Taken(s, pull.take, quiet);
      PullWithholds(s, pull.take, pull.afterSeq, quiet);
      TakeKeepsInv(s, pull.take, quiet);
      HonestCallersGetAll(t, pulls[1..], quiet);
      assert Takes(pulls)[1..] == Takes(pulls[1..]);
      Regroup(Chunks(s.pieces), Reply(s, pull.take, pull.afterSeq, quiet), Received(t, pulls[1..], quiet));
    } else {
      assert Chunks(s.pieces) + [] == Chunks(s.pieces);
    }
  }

  // ---- the objects ----

  class Recording {
    var seqNo: nat
    var emittedFrames: nat
    var silentFrames: nat
    var stopped: bool
    var pending: seq<Byte>
    ghost var pieces: seq<Piece>
    ghost var mixed: seq<Byte>

    ghost function View(): Tape
      reads this
    {
      Tape(seqNo, emittedFrames, silentFrames, pending, pieces, mixed)
    }

    constructor ()
      ensures View() == Blank() && !stopped
    {
      seqNo, emittedFrames, silentFrames, stopped, pending := 0, 0, 0, false, [];
      pieces, mixed := [], [];
    }

    /** `mix` is what the sources delivered since the last call, mixed. */
    method TakeChunk(mix: seq<Byte>, final: bool, quiet: seq<Byte> -> bool) returns (chunk: Option<Piece>)
      modifies this
      ensures View() == Taken(old(View()), Take(mix, final), quiet) && stopped == old(stopped)
      ensures chunk == if seqNo > old(seqNo) then Some(pieces[|pieces| - 1]) else None
      ensures seqNo > old(seqNo) ==> pieces != []
    {
      pending := pending + mix;
      mixed := mixed + mix;
      var frames := |pending| / SAMPLE_WIDTH;
      if frames == 0 || (!final && frames < MIN_CHUNK_S * TARGET_RATE) {
        return None;
      }
      var pcm := pending;
      pending := [];
      var t0 := emittedFrames;
      emittedFrames := emittedFrames + frames;
      if quiet(pcm) {
        silentFrames := silentFrames + frames;
        pieces := pieces + [Silence(t0, emittedFrames, pcm)];
        return None;
      }
      seqNo := seqNo + 1;
      var made := Chunk(seqNo, t0, emittedFrames, pcm);
      pieces := pieces + [made];
      chunk := Some(made);
    }
  }

  class MeetingCapture {
    var recordings: map<string, Recording>

    ghost predicate Valid()
      reads this
    {
      forall a, b :: a in recordings && b in recordings && a != b ==> recordings[a] != recordings[b]
    }

    constructor ()
      ensures Valid() && recordings == map[]
    {
      recordings := map[];
    }

    /** A meeting already recorded goes on as it is. */
    method Start(id: string) returns (already: bool)
      requires Valid()
      modifies this
      ensures Valid() && already == (id in old(recordings)) && id in recordings
      ensures already ==> recordings == old(recordings)
      ensures !already ==> recordings == old(recordings)[id := recordings[id]] &&
                           fresh(recordings[id]) && recordings[id].View() == Blank()
    {
      if id in recordings {
        return true;
      }
      var rec := new Recording();
      recordings := recordings[id := rec];
      already := false;
    }

    method Pull(id: string, afterSeq: int, mix: seq<Byte>, quiet: seq<Byte> -> bool)
      returns (r: Result<seq<Piece>, string>)
      requires Valid()
      modifies if id in recordings then {recordings[id]} else {}
      ensures id !in recordings <==> r.Err?
      ensures id in recordings ==>
                && recordings[id].View() == Taken(old(recordings[id].View()), Take(mix, false), quiet)
                && r == Ok(Reply(old(recordings[id].View()), Take(mix, false), afterSeq, quiet))
    {
      if id !in recordings {
        return Err("meeting " + id + " is not being recorded on this machine");
      }
      var chunk := recordings[id].TakeChunk(mix, false, quiet);
      if chunk.Some? && chunk.value.Chunk? && chunk.value.seqNo > afterSeq {
        return Ok([chunk.value]);
      }
      r := Ok([]);
    }

    /** The rest of the tape is drained whatever its length; a second stop finds nothing. */
    method Stop(id: string, mix: seq<Byte>, quiet: seq<Byte> -> bool) returns (chunks: seq<Piece>)
      requires Valid()
      modifies this, if id in recordings then {recordings[id]} else {}
      ensures Valid() && recordings == old(recordings) - {id}
      ensures id !in old(recordings) ==> chunks == []
      ensures id in old(recordings) ==>
                var rec := old(recordings[id]);
                && rec.View() == Taken(old(recordings[id].View()), Take(mix, true), quiet) && rec.stopped
                && chunks == Reply(old(recordings[id].View()), Take(mix, true), 0, quiet)
    {
      if id !in recordings {
        assert recordings - {id} == recordings;
        return [];
      }
      var rec := recordings[id];
      recordings := recordings - {id};
      var chunk := rec.TakeChunk(mix, true, quiet);
      rec.stopped := true;
      chunks := if chunk.Some? then [chunk.value] else [];
    }
  }
}
