/**
 * Frames of the ZMTP/2.0 framing as src/v2_encoder.cpp writes them and src/v2_decoder.cpp
 * reads them: a flags byte, a size of one or eight bytes, and the body.
 */
module Wire {
  import opened Common

  const UCHAR_MAX := 255
  const TWO_TO_64 := 0x1_0000_0000_0000_0000

  const MORE_FLAG := 1
  const LARGE_FLAG := 2
  const COMMAND_FLAG := 4

  /** Subscriptions and their cancellations get one more byte in front of the body. */
  datatype Kind = Plain | Subscribe | Cancel

  datatype OutMsg = OutMsg(more: bool, command: bool, kind: Kind, body: seq<byte>)

  datatype InMsg = InMsg(more: bool, command: bool, body: seq<byte>)

  // ----- Numbers ---------------------------------------------------------------------------------

  function PutUint(n: nat, width: nat): (s: seq<byte>)
    ensures |s| == width
  {
    if width == 0 then [] else PutUint(n / 256, width - 1) + [n % 256]
  }

  function GetUint(s: seq<byte>): nat {
    if s == [] then 0 else 256 * GetUint(s[..|s| - 1]) + s[|s| - 1]
  }

  function Pow256(k: nat): nat {
    if k == 0 then 1 else 256 * Pow256(k - 1)
  }

  lemma {:induction false} GetPutUint(n: nat, width: nat)
    requires n < Pow256(width)
    ensures GetUint(PutUint(n, width)) == n
  {
    if width > 0 {
      GetPutUint(n / 256, width - 1);
      assert PutUint(n, width)[..width - 1] == PutUint(n / 256, width - 1);
    }
  }

  lemma Pow256Of8()
    ensures Pow256(8) == TWO_TO_64
  {
    assert Pow256(4) == 0x1_0000_0000;
  }

  // ----- What the encoder writes --------------------------------------------------------------------

  /** The size on the wire: the body and, for subscriptions, the byte in front of it. */
  function WireSize(m: OutMsg): nat {
    |m.body| + if m.kind.Plain? then 0 else 1
  }

  /** The flag for a long size looks at the body only. */
  function FlagsByte(m: OutMsg): byte {
    (if m.more then MORE_FLAG else 0)
    + (if |m.body| > UCHAR_MAX then LARGE_FLAG else 0)
    + (if m.command then COMMAND_FLAG else 0)
  }

  /** The flags and the size of a frame. */
  function Prelude(x: OutMsg): seq<byte>
    requires WireSize(x) < TWO_TO_64
  {
    [FlagsByte(x)] + Size(x)
  }

  function Size(x: OutMsg): seq<byte>
    requires WireSize(x) < TWO_TO_64
  {
    if WireSize(x) > UCHAR_MAX then PutUint(WireSize(x), 8) else [WireSize(x)]
  }

  /** Flags, size, and the byte that tells subscriptions from cancellations. */
  function Header(m: OutMsg): (h: seq<byte>)
    requires WireSize(m) < TWO_TO_64
    ensures 2 <= |h| <= 10
  {
    Prelude(m) + Lead(m.kind)
  }

  function Lead(k: Kind): seq<byte> {
    match k
    case Plain => []
    case Subscribe => [1]
    case Cancel => [0]
  }

  function Frame(m: OutMsg): seq<byte>
    requires WireSize(m) < TWO_TO_64
  {
    Header(m) + m.body
  }

  predicate Encodable(ms: seq<OutMsg>) {
    forall m :: m in ms ==> WireSize(m) < TWO_TO_64
  }

  function Frames(ms: seq<OutMsg>): seq<byte>
    requires Encodable(ms)
  {
    if ms == [] then [] else Frame(ms[0]) + Frames(ms[1..])
  }

  /** The last byte is the least significant one. */
  lemma LastByte(n: nat, width: nat, s: seq<byte>)
    requires width > 0 && s == PutUint(n, width)
    ensures s[width - 1] == n % 256 && s[..width - 1] == PutUint(n / 256, width - 1)
  {
  }

  /** The number that four 16-bit digits stand for, the most significant one first. */
  function Network(a: int, b: int, c: int, d: int): int {
    a * 0x1_0000_0000_0000 + b * 0x1_0000_0000 + c * 0x1_0000 + d
  }

  function Digit(high: int, low: int): int {
    high * 0x100 + low
  }

  lemma LastTwo(n: nat, width: nat, s: seq<byte>)
    requires width > 1 && s == PutUint(n, width)
    ensures s[..width - 2] == PutUint(n / 0x1_0000, width - 2) && Digit(s[width - 2], s[width - 1]) == n % 0x1_0000
  {
    LastByte(n, width, s);
    LastByte(n / 256, width - 1, s[..width - 1]);
    assert s[..width - 1][..width - 2] == s[..width - 2];
  }

  /** The most significant byte comes first. */
  lemma EightBytes(n: nat, s: seq<byte>)
    requires n < TWO_TO_64 && s == PutUint(n, 8)
    ensures n == Network(Digit(s[0], s[1]), Digit(s[2], s[3]), Digit(s[4], s[5]), Digit(s[6], s[7]))
  {
    var n1 := n / 0x1_0000;
    var n2 := n1 / 0x1_0000;
    var n3 := n2 / 0x1_0000;
    LastTwo(n, 8, s);
    LastTwo(n1, 6, s[..6]);
    LastTwo(n2, 4, s[..6][..4]);
    LastTwo(n3, 2, s[..6][..4][..2]);
    Digits(n);
  }

  lemma Digits(n: nat)
    requires n < TWO_TO_64
    ensures var n1 := n / 0x1_0000;
            var n2 := n1 / 0x1_0000;
            n == Network(n2 / 0x1_0000 % 0x1_0000, n2 % 0x1_0000, n1 % 0x1_0000, n % 0x1_0000)
  {
  }

  /** The bits of the flags: 1 if more parts follow, 2 for a long body, 4 for a command. */
  lemma FlagBits(x: OutMsg)
    ensures FlagsByte(x) == Bit(x.more) + 2 * Bit(|x.body| > 255) + 4 * Bit(x.command)
  {
  }

  /** The bytes in front of a body of that length. */
  ghost predicate IsHeader(h: seq<byte>, more: bool, command: bool, kind: Kind, len: nat) {
    var flags, n := Bit(more) + 2 * Bit(len > 255) + 4 * Bit(command), len + Bit(!kind.Plain?);
    if n <= 255 then
      match kind
      case Plain => h == [flags, n]
      case Subscribe => h == [flags, n, 1]
      case Cancel => h == [flags, n, 0]
    else
      && |h| == 9 + Bit(!kind.Plain?) && h[0] == flags
      && Network(Digit(h[1], h[2]), Digit(h[3], h[4]), Digit(h[5], h[6]), Digit(h[7], h[8])) == n
      && (kind.Subscribe? ==> h[9] == 1) && (kind.Cancel? ==> h[9] == 0)
  }

  /** A long size is flagged as such unless the body alone would be short. */
  lemma HeaderIs(x: OutMsg)
    requires WireSize(x) < TWO_TO_64
    ensures IsHeader(Header(x), x.more, x.command, x.kind, |x.body|)
  {
    FlagBits(x);
    if WireSize(x) > 255 {
      var size := PutUint(WireSize(x), 8);
      EightBytes(WireSize(x), size);
      LongHeaderIs(x, size);
    }
  }

  lemma LongHeaderIs(x: OutMsg, size: seq<byte>)
    requires 255 < WireSize(x) < TWO_TO_64 && size == PutUint(WireSize(x), 8)
    ensures var h := Header(x);
            && |h| == 9 + |Lead(x.kind)| && h[0] == FlagsByte(x) && h[9..] == Lead(x.kind)
            && forall i :: 0 <= i < 8 ==> h[1 + i] == size[i]
  {
    assert Header(x) == [FlagsByte(x)] + size + Lead(x.kind);
  }

  /** The bytes of every frame: such a header, and the body. */
  lemma FrameBytes(x: OutMsg)
    requires WireSize(x) < TWO_TO_64
    ensures exists h :: IsHeader(h, x.more, x.command, x.kind, |x.body|) && Frame(x) == h + x.body
  {
    HeaderIs(x);
    assert Frame(x) == Header(x) + x.body;
  }

  // ----- What a message means to the receiver ---------------------------------------------------------

  function Meaning(m: OutMsg): (r: InMsg)
    ensures r.more == m.more && r.command == m.command
    ensures match m.kind
            case Plain => r.body == m.body
            case Subscribe => r.body == [1] + m.body
            case Cancel => r.body == [0] + m.body
  {
    InMsg(m.more, m.command, Lead(m.kind) + m.body)
  }

  function Meanings(ms: seq<OutMsg>): seq<InMsg> {
    if ms == [] then [] else [Meaning(ms[0])] + Meanings(ms[1..])
  }

  // ----- The decoder as a machine that takes one byte at a time -----------------------------------------

  datatype Step = FlagsReady | OneByteSizeReady | EightByteSizeReady | MessageReady

  /** What it waits for, the bytes it has of that, how many are missing, and the flags of the message. */
  datatype Machine = Machine(next: Step, got: seq<byte>, toRead: nat, more: bool, command: bool)

  const START := Machine(FlagsReady, [], 1, false, false)

  datatype Result = Wants(m: Machine) | Decoded(m: Machine, msg: InMsg) | Failed(m: Machine)

  // The flag bits are 1 for more, 2 for large and 4 for command.
  predicate HasMore(b: byte) {
    b % 2 == 1
  }

  predicate HasLarge(b: byte) {
    (b / 2) % 2 == 1
  }

  predicate HasCommand(b: byte) {
    (b / 4) % 2 == 1
  }

  /** The three lowest bits, whatever the others are. */
  lemma FlagsAreBits(b: byte)
    ensures b % 8 == Bit(HasMore(b)) + 2 * Bit(HasLarge(b)) + 4 * Bit(HasCommand(b))
  {
  }

  /** A message of n bytes is coming. */
  function SizeReady(m: Machine, max: int, n: nat): Result {
    if 0 <= max < n then Failed(m)
    else if n > 0 then Wants(m.(next := MessageReady, got := [], toRead := n))
    else Decoded(START.(more := m.more, command := m.command), InMsg(m.more, m.command, []))
  }

  /** Takes steps until more bytes are needed, a message is complete or the size is refused. */
  function Settle(m: Machine, max: int): Result
    requires m.toRead == 0 && (m.next.MessageReady? || m.got != [])
  {
    match m.next
    case FlagsReady =>
      var b := m.got[0];
      var large := HasLarge(b);
      Wants(Machine(if large then EightByteSizeReady else OneByteSizeReady, [], if large then 8 else 1,
                    HasMore(b), HasCommand(b)))
    case OneByteSizeReady => SizeReady(m, max, m.got[0])
    case EightByteSizeReady => SizeReady(m, max, GetUint(m.got))
    case MessageReady => Decoded(START.(more := m.more, command := m.command), InMsg(m.more, m.command, m.got))
  }

  ghost predicate Waiting(m: Machine) {
    && m.toRead > 0
    && (m.next.FlagsReady? || m.next.OneByteSizeReady? ==> |m.got| + m.toRead == 1)
    && (m.next.EightByteSizeReady? ==> |m.got| + m.toRead == 8)
  }

  function TakeByte(m: Machine, max: int, b: byte): Result
    requires Waiting(m)
  {
    var t := m.(got := m.got + [b], toRead := m.toRead - 1);
    if t.toRead > 0 then Wants(t) else Settle(t, max)
  }

  lemma TakeByteWaits(m: Machine, max: int, b: byte)
    requires Waiting(m)
    ensures !TakeByte(m, max, b).Failed? ==> Waiting(TakeByte(m, max, b).m)
  {
    var t := m.(got := m.got + [b], toRead := m.toRead - 1);
    if t.toRead == 0 { SettleWaits(t, max); }
  }

  lemma SettleWaits(m: Machine, max: int)
    requires m.toRead == 0 && (m.next.MessageReady? || m.got != [])
    ensures !Settle(m, max).Failed? ==> Waiting(Settle(m, max).m)
  {
    if m.next.OneByteSizeReady? { SizeReadyWaits(m, max, m.got[0]); }
    if m.next.EightByteSizeReady? { SizeReadyWaits(m, max, GetUint(m.got)); }
  }

  lemma SizeReadyWaits(m: Machine, max: int, n: nat)
    ensures !SizeReady(m, max, n).Failed? ==> Waiting(SizeReady(m, max, n).m)
  {
  }

  /** All that comes of a stream: where the machine ends, the messages, and whether it failed. */
  datatype Outcome = Outcome(m: Machine, msgs: seq<InMsg>, failed: bool)

  function Feed(m: Machine, max: int, s: seq<byte>): (o: Outcome)
    requires Waiting(m)
    ensures !o.failed ==> Waiting(o.m)
    decreases |s|
  {
    if s == [] then Outcome(m, [], false)
    else
      TakeByteWaits(m, max, s[0]);
      match TakeByte(m, max, s[0])
      case Failed(t) => Outcome(t, [], true)
      case Wants(t) => Feed(t, max, s[1..])
      case Decoded(t, msg) =>
        var o := Feed(t, max, s[1..]);
        o.(msgs := [msg] + o.msgs)
  }

  /** A stream may be fed in two pieces: chunks do not matter. */
  lemma {:induction false} FeedAppend(m: Machine, max: int, s: seq<byte>, t: seq<byte>)
    requires Waiting(m)
    ensures var a := Feed(m, max, s);
            Feed(m, max, s + t) ==
            if a.failed then a else var b := Feed(a.m, max, t); b.(msgs := a.msgs + b.msgs)
    decreases |s|
  {
    if s == [] {
      assert s + t == t;
    } else {
      assert (s + t)[0] == s[0] && (s + t)[1..] == s[1..] + t;
      TakeByteWaits(m, max, s[0]);
      var r := TakeByte(m, max, s[0]);
      if !r.Failed? { FeedAppend(r.m, max, s[1..], t); }
      if r.Decoded? {
        var a := Feed(r.m, max, s[1..]);
        if !a.failed {
          assert [r.msg] + (a.msgs + Feed(a.m, max, t).msgs) == ([r.msg] + a.msgs) + Feed(a.m, max, t).msgs;
        }
      }
    }
  }

  /** Bytes that do not complete what the machine waits for are only collected. */
  lemma {:induction false} FeedCollects(m: Machine, max: int, s: seq<byte>)
    requires Waiting(m) && |s| < m.toRead
    ensures Feed(m, max, s) == Outcome(m.(got := m.got + s, toRead := m.toRead - |s|), [], false)
    decreases |s|
  {
    if s == [] {
      assert m.got + s == m.got;
    } else {
      var t := m.(got := m.got + [s[0]], toRead := m.toRead - 1);
      FeedCollects(t, max, s[1..]);
      assert (m.got + [s[0]]) + s[1..] == m.got + s;
    }
  }

  /** What a stream comes to that ends with a step. */
  function Came(r: Result): Outcome {
    match r
    case Failed(t) => Outcome(t, [], true)
    case Wants(t) => Outcome(t, [], false)
    case Decoded(t, msg) => Outcome(t, [msg], false)
  }

  /** Bytes that complete it lead to the next step. */
  lemma FeedCompletes(m: Machine, max: int, s: seq<byte>)
    requires Waiting(m) && |s| == m.toRead
    ensures var t := m.(got := m.got + s, toRead := 0);
            (t.next.MessageReady? || t.got != []) && Feed(m, max, s) == Came(Settle(t, max))
  {
    var init, b := s[..|s| - 1], s[|s| - 1];
    assert s == init + [b];
    FeedCollects(m, max, init);
    FeedAppend(m, max, init, [b]);
    assert (m.got + init) + [b] == m.got + s;
  }

  // ----- Round trip -----------------------------------------------------------------------------------

  /** The one message whose size is written in eight bytes without saying so. */
  predicate Mislabelled(m: OutMsg) {
    !m.kind.Plain? && |m.body| == UCHAR_MAX
  }

  predicate Accepted(m: OutMsg, max: int) {
    WireSize(m) < TWO_TO_64 && (max < 0 || WireSize(m) <= max)
  }

  /** The message is not too long and its size is labelled right. */
  predicate Survives(x: OutMsg, max: int) {
    Accepted(x, max) && !Mislabelled(x)
  }

  lemma FlagsByteReads(m: OutMsg)
    ensures HasMore(FlagsByte(m)) == m.more
    ensures HasLarge(FlagsByte(m)) == (|m.body| > UCHAR_MAX)
    ensures HasCommand(FlagsByte(m)) == m.command
  {
  }

  /** Between two messages; the flags of the last one are still there. */
  predicate Idle(m: Machine) {
    m.next.FlagsReady? && m.got == [] && m.toRead == 1
  }

  /** Waiting for the step that reads the size, with these bytes of it. */
  function Sizing(x: OutMsg, got: seq<byte>, toRead: nat): Machine {
    Machine(if |x.body| > UCHAR_MAX then EightByteSizeReady else OneByteSizeReady, got, toRead, x.more, x.command)
  }

  function SizeBytes(x: OutMsg): nat {
    if |x.body| > UCHAR_MAX then 8 else 1
  }

  /** The flags byte decides how many bytes of size are read. */
  lemma FeedFlags(m: Machine, max: int, x: OutMsg)
    requires Idle(m)
    ensures Feed(m, max, [FlagsByte(x)]) == Outcome(Sizing(x, [], SizeBytes(x)), [], false)
  {
    FlagsByteReads(x);
    FeedCompletes(m, max, [FlagsByte(x)]);
    assert m.got + [FlagsByte(x)] == [FlagsByte(x)];
  }

  lemma FeedHead(m: Machine, max: int, x: OutMsg, size: seq<byte>)
    requires Idle(m) && |size| == SizeBytes(x)
    ensures Feed(m, max, [FlagsByte(x)] + size) == Came(Settle(Sizing(x, size, 0), max))
  {
    FeedFlags(m, max, x);
    FeedAppend(m, max, [FlagsByte(x)], size);
    FeedCompletes(Sizing(x, [], SizeBytes(x)), max, size);
    assert [] + size == size;
  }

  lemma FramePrelude(x: OutMsg)
    requires WireSize(x) < TWO_TO_64
    ensures Frame(x) == Prelude(x) + (Lead(x.kind) + x.body)
  {
  }

  /** A size that is labelled right is read as it was written. */
  lemma FeedSize(m: Machine, max: int, x: OutMsg)
    requires Idle(m) && WireSize(x) < TWO_TO_64 && !Mislabelled(x)
    ensures Feed(m, max, Prelude(x)) == Came(SizeReady(Sizing(x, Size(x), 0), max, WireSize(x)))
  {
    FeedHead(m, max, x, Size(x));
    if WireSize(x) > UCHAR_MAX {
      Pow256Of8();
      GetPutUint(WireSize(x), 8);
    }
  }

  /** One frame is decoded to the message it stands for. */
  lemma FrameFeeds(m: Machine, max: int, x: OutMsg)
    requires Idle(m) && Survives(x, max)
    ensures var o := Feed(m, max, Frame(x)); o.msgs == [Meaning(x)] && !o.failed && Idle(o.m)
  {
    var body := Lead(x.kind) + x.body;
    FramePrelude(x);
    FeedSize(m, max, x);
    FeedAppend(m, max, Prelude(x), body);
    if body != [] { FeedBody(Feed(m, max, Prelude(x)).m, max, body); }
  }

  lemma FeedBody(m: Machine, max: int, body: seq<byte>)
    requires m.next.MessageReady? && m.got == [] && m.toRead == |body| > 0
    ensures Feed(m, max, body)
            == Outcome(START.(more := m.more, command := m.command), [InMsg(m.more, m.command, body)], false)
  {
    FeedCompletes(m, max, body);
    assert m.got + body == body;
  }

  /**
   * Whatever flags, size and body arrive, from this encoder or another: they are a message of that body
   * exactly if it is not over the limit, and otherwise the stream is refused.
   */
  lemma AnyFrame(m: Machine, max: int, b: byte, size: seq<byte>, body: seq<byte>)
    requires Idle(m) && |size| == (if HasLarge(b) then 8 else 1) && GetUint(size) == |body|
    ensures var o := Feed(m, max, [b] + size + body);
            if max < 0 || |body| <= max then
              !o.failed && o.msgs == [InMsg(HasMore(b), HasCommand(b), body)] && Idle(o.m)
            else o.failed && o.msgs == []
  {
    AnyHead(m, max, b, size);
    FeedAppend(m, max, [b] + size, body);
    if body != [] && (max < 0 || |body| <= max) { FeedBody(Feed(m, max, [b] + size).m, max, body); }
  }

  lemma AnyHead(m: Machine, max: int, b: byte, size: seq<byte>)
    requires Idle(m) && |size| == (if HasLarge(b) then 8 else 1)
    ensures var t := Machine(if HasLarge(b) then EightByteSizeReady else OneByteSizeReady, size, 0,
                             HasMore(b), HasCommand(b));
            Feed(m, max, [b] + size) == Came(SizeReady(t, max, GetUint(size)))
  {
    FeedCompletes(m, max, [b]);
    assert m.got + [b] == [b];
    var t := Feed(m, max, [b]).m;
    FeedAppend(m, max, [b], size);
    FeedCompletes(t, max, size);
    assert t.got + size == size;
    if !HasLarge(b) { assert size[..0] == []; }
  }

  /** The zeros of the long size are taken for the size of an empty message. */
  lemma MislabelledFeeds(m: Machine, max: int, x: OutMsg)
    requires Idle(m) && WireSize(x) < TWO_TO_64 && Mislabelled(x)
    ensures var o := Feed(m, max, Frame(x)); o.msgs != [] && o.msgs[0] == InMsg(x.more, x.command, [])
  {
    var head, rest := [FlagsByte(x)] + [0], Frame(x)[2..];
    MislabelledFrame(x);
    FeedHead(m, max, x, [0]);
    FeedAppend(m, max, head, rest);
  }

  lemma MislabelledFrame(x: OutMsg)
    requires WireSize(x) < TWO_TO_64 && Mislabelled(x)
    ensures |Frame(x)| >= 2 && Frame(x) == [FlagsByte(x)] + [0] + Frame(x)[2..]
  {
    assert Pow256(3) == 0x100_0000;
    assert Pow256(5) == 0x100_0000_0000;
    FirstByte(256, 8);
  }

  lemma {:induction false} FirstByte(n: nat, width: nat)
    requires width > 0 && n < Pow256(width - 1)
    ensures PutUint(n, width)[0] == 0
  {
    if width > 1 { FirstByte(n / 256, width - 1); }
  }

  lemma TooLongFeeds(m: Machine, max: int, x: OutMsg)
    requires Idle(m) && WireSize(x) < TWO_TO_64 && !Mislabelled(x) && !Accepted(x, max)
    ensures Feed(m, max, Frame(x)).failed && Feed(m, max, Frame(x)).msgs == []
  {
    FramePrelude(x);
    FeedSize(m, max, x);
    FeedAppend(m, max, Prelude(x), Lead(x.kind) + x.body);
  }

  /** A message is decoded to what it stands for exactly if it survives. */
  lemma RoundTrip(m: Machine, max: int, x: OutMsg)
    requires Idle(m) && WireSize(x) < TWO_TO_64
    ensures Feed(m, max, Frame(x)).msgs == [Meaning(x)] <==> Survives(x, max)
  {
    if Mislabelled(x) {
      MislabelledFeeds(m, max, x);
    } else if Accepted(x, max) {
      FrameFeeds(m, max, x);
    } else {
      TooLongFeeds(m, max, x);
    }
  }

  /** A message that does not survive spoils what is decoded, whatever follows it. */
  lemma Spoils(m: Machine, max: int, x: OutMsg, rest: seq<byte>, msgs: seq<InMsg>)
    requires Idle(m) && WireSize(x) < TWO_TO_64 && !Survives(x, max)
    ensures Feed(m, max, Frame(x) + rest).msgs != [Meaning(x)] + msgs
  {
    FeedAppend(m, max, Frame(x), rest);
    if Mislabelled(x) {
      MislabelledFeeds(m, max, x);
      assert ([Meaning(x)] + msgs)[0].body != [];
    } else {
      TooLongFeeds(m, max, x);
    }
  }

  /** A stream of frames is decoded to what was sent exactly if every message survives. */
  lemma {:induction false} FramesFeed(m: Machine, max: int, ms: seq<OutMsg>)
    requires Idle(m) && Encodable(ms)
    ensures var o := Feed(m, max, Frames(ms));
            && (o.msgs == Meanings(ms) <==> forall x :: x in ms ==> Survives(x, max))
            && (o.msgs == Meanings(ms) ==> !o.failed && Idle(o.m))
    decreases |ms|
  {
    if ms != [] {
      if Survives(ms[0], max) {
        FrameFeeds(m, max, ms[0]);
        FramesFeed(Feed(m, max, Frame(ms[0])).m, max, ms[1..]);
        FirstFeeds(m, max, ms);
        assert forall x :: x in ms <==> x == ms[0] || x in ms[1..];
      } else {
        Spoils(m, max, ms[0], Frames(ms[1..]), Meanings(ms[1..]));
      }
    }
  }

  lemma FirstFeeds(m: Machine, max: int, ms: seq<OutMsg>)
    requires Idle(m) && ms != [] && Survives(ms[0], max) && Encodable(ms)
    ensures var a, o := Feed(m, max, Frame(ms[0])), Feed(m, max, Frames(ms));
            && !a.failed && Idle(a.m)
            && var b := Feed(a.m, max, Frames(ms[1..]));
               o == b.(msgs := [Meaning(ms[0])] + b.msgs) && (o.msgs == Meanings(ms) <==> b.msgs == Meanings(ms[1..]))
  {
    FrameFeeds(m, max, ms[0]);
    FeedAppend(m, max, Frame(ms[0]), Frames(ms[1..]));
    var b := Feed(Feed(m, max, Frame(ms[0])).m, max, Frames(ms[1..]));
    assert ([Meaning(ms[0])] + b.msgs)[1..] == b.msgs && Meanings(ms)[1..] == Meanings(ms[1..]);
  }
}
