/**
 * What holds of a Buffer over its whole life: how large it can grow, how much
 * prepend room it keeps, and that integers come out as they went in.
 */
module BufferHistory {
  import opened Basics
  import opened Codec
  import opened NetBuffer

  /** One call on a Buffer, as far as its indices are concerned. */
  datatype Op = Append(n: nat) | Retrieve(n: nat) | RetrieveAll | Prepend(n: nat) | ReadFd(n: nat)

  /** What the source asserts of the caller, and the limit readv(2) obeys. */
  predicate Allowed(s: Shape, op: Op)
    requires s.reader <= s.writer <= s.size
  {
    match op
    case Append(_) => true
    case Retrieve(n) => n <= s.Readable()
    case RetrieveAll => true
    case Prepend(n) => n <= s.reader
    case ReadFd(n) => n <= s.Writable() + EXTRA_BUFFER
  }

  function Step(s: Shape, op: Op): (t: Shape)
    requires s.Ok() && Allowed(s, op)
    ensures t.Ok()
  {
    match op
    case Append(n) => s.Append(n)
    case Retrieve(n) => s.Retrieve(n)
    case RetrieveAll => s.RetrieveAll()
    case Prepend(n) => s.Prepend(n)
    case ReadFd(n) => s.Read(n)
  }

  ghost predicate Legal(s: Shape, ops: seq<Op>)
    requires s.Ok()
    decreases |ops|
  {
    ops == [] || (Allowed(s, ops[0]) && Legal(Step(s, ops[0]), ops[1..]))
  }

  ghost function Run(s: Shape, ops: seq<Op>): (t: Shape)
    requires s.Ok() && Legal(s, ops)
    ensures t.Ok()
    decreases |ops|
  {
    if ops == [] then s else Run(Step(s, ops[0]), ops[1..])
  }

  function Max(a: nat, b: nat): nat {
    if a < b then b else a
  }

  /** The largest `readableBytes()` ever reached. */
  ghost function Peak(s: Shape, ops: seq<Op>): nat
    requires s.Ok() && Legal(s, ops)
    decreases |ops|
  {
    if ops == [] then s.Readable() else Max(s.Readable(), Peak(Step(s, ops[0]), ops[1..]))
  }

  /** The first block, or twice the largest content ever held plus six. */
  function Bound(peak: nat): nat {
    Max(CHEAP_PREPEND + INITIAL_SIZE, 2 * peak + 6)
  }

  /** One call: a block that had to grow was nearly full of what it now holds. */
  lemma StepWithinBound(s: Shape, op: Op, peak: nat)
    requires s.Ok() && Allowed(s, op)
    requires s.size <= Bound(peak)
    ensures Step(s, op).size <= Bound(Max(peak, Step(s, op).Readable()))
  {
  }

  lemma {:induction false} RunWithinBound(s: Shape, ops: seq<Op>, peak: nat)
    requires s.Ok() && Legal(s, ops)
    requires s.size <= Bound(peak)
    ensures Run(s, ops).size <= Bound(Max(peak, Peak(s, ops)))
    decreases |ops|
  {
    if ops != [] {
      var t := Step(s, ops[0]);
      StepWithinBound(s, ops[0], peak);
      RunWithinBound(t, ops[1..], Max(peak, t.Readable()));
      PeakIncludesStart(t, ops[1..]);
    }
  }

  lemma PeakIncludesStart(s: Shape, ops: seq<Op>)
    requires s.Ok() && Legal(s, ops)
    ensures s.Readable() <= Peak(s, ops)
  {
  }

  /** Every history of a fresh buffer stays within the bound set by its fullest moment. */
  lemma CapacityBound(ops: seq<Op>)
    requires Legal(EMPTY, ops)
    ensures Run(EMPTY, ops).size <= Bound(Peak(EMPTY, ops))
  {
    RunWithinBound(EMPTY, ops, 0);
  }

  /** The bound cannot be lowered: a history that grows while the block is nearly empty meets it. */
  lemma CapacityBoundIsReached()
    ensures var ops := [Append(1024), Retrieve(1023), Append(1024)];
            Legal(EMPTY, ops) && Peak(EMPTY, ops) == 1025 && Run(EMPTY, ops).size == Bound(1025) == 2056
  {
    var s1 := Step(EMPTY, Append(1024));
    var s2 := Step(s1, Retrieve(1023));
    var s3 := Step(s2, Append(1024));
    var ops := [Append(1024), Retrieve(1023), Append(1024)];
    assert ops[1..] == [Retrieve(1023), Append(1024)];
    assert ops[1..][1..] == [Append(1024)];
    assert ops[1..][1..][1..] == [];
    assert s3 == Shape(2056, 1031, 2056);
    assert Legal(s3, []) && Legal(s2, ops[1..][1..]) && Legal(s1, ops[1..]);
    assert Peak(s3, []) == 1025 && Peak(s2, ops[1..][1..]) == 1025 && Peak(s1, ops[1..]) == 1025;
    assert Run(s2, ops[1..][1..]) == s3 && Run(s1, ops[1..]) == s3;
  }

  ghost function Prepended(ops: seq<Op>): nat {
    if ops == [] then 0
    else (if ops[0].Prepend? then ops[0].n else 0) + Prepended(ops[1..])
  }

  lemma {:induction false} PrependDebt(s: Shape, ops: seq<Op>, owed: nat)
    requires s.Ok() && Legal(s, ops)
    requires CHEAP_PREPEND <= s.reader + owed
    ensures CHEAP_PREPEND <= Run(s, ops).reader + owed + Prepended(ops)
    decreases |ops|
  {
    if ops != [] {
      PrependDebt(Step(s, ops[0]), ops[1..], owed + if ops[0].Prepend? then ops[0].n else 0);
    }
  }

  /**
   * Cheap prepend: a history that prepended `p` bytes so far has room for the
   * other `8 - p` in place, whatever was appended, read and retrieved between.
   */
  lemma CheapPrependGuarantee(ops: seq<Op>, n: nat)
    requires Legal(EMPTY, ops)
    requires Prepended(ops) + n <= CHEAP_PREPEND
    ensures Allowed(Run(EMPTY, ops), Prepend(n))
    ensures Step(Run(EMPTY, ops), Prepend(n)).size == Run(EMPTY, ops).size
  {
    PrependDebt(EMPTY, ops, 0);
  }

  /** After prepends, draining the buffer or compacting it pays the whole debt back. */
  lemma PrependRoomRestored(ops: seq<Op>, n: nat)
    requires Legal(EMPTY, ops)
    ensures Step(Run(EMPTY, ops), RetrieveAll).reader == CHEAP_PREPEND
    ensures Step(Run(EMPTY, ops), Retrieve(Run(EMPTY, ops).Readable())).reader == CHEAP_PREPEND
    ensures var s, t := Run(EMPTY, ops), Step(Run(EMPTY, ops), Append(n));
            t.reader != s.reader ==> t.reader == CHEAP_PREPEND < s.reader && t.size == s.size
  {
  }

  // ---------------------------------------------------------------- integers

  datatype Typed = Typed(kind: Kind, x: int)

  /** A typed integer that its width can hold. */
  type Num = n: Typed | n.kind.Holds(n.x) witness Typed(Int8, 0)

  /** AppendInt of a number, or ReadInt of a width. */
  datatype IntOp = Put(num: Num) | Get(kind: Kind)

  /** The buffer content that holds exactly these unread integers. */
  function Layout(nums: seq<Num>): seq<byte> {
    if nums == [] then [] else Encode(nums[0].kind, nums[0].x) + Layout(nums[1..])
  }

  /** The effect of the calls on the content, as Buffer.AppendInt and Buffer.ReadInt specify it. */
  function Play(content: seq<byte>, ops: seq<IntOp>): (r: Option<(seq<byte>, seq<Num>)>)
    decreases |ops|
  {
    if ops == [] then Some((content, []))
    else match ops[0]
      case Put(num) => Play(content + Encode(num.kind, num.x), ops[1..])
      case Get(kind) =>
        var w := kind.Width();
        if |content| < w then None
        else match Play(content[w..], ops[1..])
          case None => None
          case Some((rest, got)) =>
            var num: Num := Typed(kind, Decode(kind, content[..w]));
            Some((rest, [num] + got))
  }

  /** The reader asks for the widths in the order in which they were written, and never too early. */
  ghost predicate InStep(unread: seq<Num>, ops: seq<IntOp>)
    decreases |ops|
  {
    ops == []
    || (ops[0].Put? && InStep(unread + [ops[0].num], ops[1..]))
    || (ops[0].Get? && unread != [] && unread[0].kind == ops[0].kind && InStep(unread[1..], ops[1..]))
  }

  function Puts(ops: seq<IntOp>): seq<Num> {
    if ops == [] then []
    else (if ops[0].Put? then [ops[0].num] else []) + Puts(ops[1..])
  }

  function Gets(ops: seq<IntOp>): nat {
    if ops == [] then 0 else (if ops[0].Get? then 1 else 0) + Gets(ops[1..])
  }

  lemma {:induction false} LayoutSnoc(nums: seq<Num>, num: Num)
    ensures Layout(nums + [num]) == Layout(nums) + Encode(num.kind, num.x)
  {
    if nums == [] {
      assert [num][1..] == [];
    } else {
      assert (nums + [num])[1..] == nums[1..] + [num];
      LayoutSnoc(nums[1..], num);
    }
  }

  /** One ReadInt against an integer in front. */
  lemma GetTakesFirst(num: Num, content: seq<byte>, ops: seq<IntOp>)
    requires ops != [] && ops[0] == Get(num.kind)
    requires Play(content, ops[1..]).Some?
    ensures var (rest, got) := Play(content, ops[1..]).value;
            Play(Encode(num.kind, num.x) + content, ops) == Some((rest, [num] + got))
  {
    var all := Encode(num.kind, num.x) + content;
    var w := num.kind.Width();
    assert |all| >= w;
    assert all[..w] == Encode(num.kind, num.x);
    assert all[w..] == content;
    SignedRoundTrip(num.kind, num.x);
  }

  /** The unread integers after the calls, with the buffer seen as a queue. */
  ghost function Left(unread: seq<Num>, ops: seq<IntOp>): seq<Num>
    requires InStep(unread, ops)
    decreases |ops|
  {
    if ops == [] then unread
    else if ops[0].Put? then Left(unread + [ops[0].num], ops[1..])
    else Left(unread[1..], ops[1..])
  }

  /** The integers the queue hands out. */
  ghost function Taken(unread: seq<Num>, ops: seq<IntOp>): seq<Num>
    requires InStep(unread, ops)
    decreases |ops|
  {
    if ops == [] then []
    else if ops[0].Put? then Taken(unread + [ops[0].num], ops[1..])
    else [unread[0]] + Taken(unread[1..], ops[1..])
  }

  lemma ConsAcross<T>(h: T, a: seq<T>, b: seq<T>, c: seq<T>, d: seq<T>)
    requires a + b == c + d
    ensures ([h] + a) + b == ([h] + c) + d
  {
    assert ([h] + a) + b == [h] + (a + b);
    assert ([h] + c) + d == [h] + (c + d);
  }

  /** The queue handed out the oldest of what it held and was given, and kept the others. */
  ghost predicate KeepsAll(unread: seq<Num>, ops: seq<IntOp>)
    requires InStep(unread, ops)
  {
    && Taken(unread, ops) + Left(unread, ops) == unread + Puts(ops)
    && |Taken(unread, ops)| == Gets(ops)
  }

  lemma PutKeepsAll(unread: seq<Num>, ops: seq<IntOp>)
    requires InStep(unread, ops) && ops != [] && ops[0].Put?
    requires KeepsAll(unread + [ops[0].num], ops[1..])
    ensures KeepsAll(unread, ops)
  {
    assert Puts(ops) == [ops[0].num] + Puts(ops[1..]);
    Regroup(unread, [ops[0].num], Puts(ops[1..]));
  }

  lemma GetKeepsAll(unread: seq<Num>, ops: seq<IntOp>)
    requires InStep(unread, ops) && ops != [] && ops[0].Get?
    requires KeepsAll(unread[1..], ops[1..])
    ensures KeepsAll(unread, ops)
  {
    ConsAcross(unread[0], Taken(unread[1..], ops[1..]), Left(unread[1..], ops[1..]), unread[1..], Puts(ops[1..]));
    assert unread == [unread[0]] + unread[1..];
    assert Puts(ops) == Puts(ops[1..]);
  }

  lemma {:induction false} QueueKeepsAll(unread: seq<Num>, ops: seq<IntOp>)
    requires InStep(unread, ops)
    ensures KeepsAll(unread, ops)
    decreases |ops|
  {
    if ops == [] {
      assert unread + [] == unread;
    } else if ops[0].Put? {
      QueueKeepsAll(unread + [ops[0].num], ops[1..]);
      PutKeepsAll(unread, ops);
    } else {
      QueueKeepsAll(unread[1..], ops[1..]);
      GetKeepsAll(unread, ops);
    }
  }

  lemma {:induction false} BytesFollowQueue(unread: seq<Num>, ops: seq<IntOp>)
    requires InStep(unread, ops)
    ensures Play(Layout(unread), ops) == Some((Layout(Left(unread, ops)), Taken(unread, ops)))
    decreases |ops|
  {
    if ops == [] {
    } else if ops[0].Put? {
      LayoutSnoc(unread, ops[0].num);
      BytesFollowQueue(unread + [ops[0].num], ops[1..]);
    } else {
      BytesFollowQueue(unread[1..], ops[1..]);
      GetTakesFirst(unread[0], Layout(unread[1..]), ops);
    }
  }

  /**
   * Any interleaving of appends and reads: the integers read, followed by those
   * still in the buffer, are the integers written, in order and unchanged.
   */
  lemma IntegersComeOutInOrder(unread: seq<Num>, ops: seq<IntOp>)
    requires InStep(unread, ops)
    ensures exists got, left ::
              && Play(Layout(unread), ops) == Some((Layout(left), got))
              && got + left == unread + Puts(ops)
              && |got| == Gets(ops)
  {
    BytesFollowQueue(unread, ops);
    QueueKeepsAll(unread, ops);
  }

  /** A prepended integer is the next one read, and reading it gives the old content back. */
  lemma PrependedIsReadFirst(content: seq<byte>, num: Num)
    ensures var ops := [Get(num.kind)];
            Play(Encode(num.kind, num.x) + content, ops) == Some((content, [num]))
  {
    var ops := [Get(num.kind)];
    assert ops[1..] == [];
    assert Play(content, ops[1..]) == Some((content, []));
    GetTakesFirst(num, content, ops);
    assert [num] + [] == [num];
  }

  /** The calls themselves: what ReadInt returns on a Buffer is what Play says, through every compaction and growth. */
  method PlayOn(b: Buffer, ops: seq<IntOp>) returns (got: seq<Num>)
    requires b.Valid() && Play(b.Contents(), ops).Some?
    modifies b, b.data
    ensures b.Valid() && (b.data == old(b.data) || fresh(b.data))
    ensures Play(old(b.Contents()), ops) == Some((b.Contents(), got))
    decreases |ops|
  {
    got := [];
    if ops != [] {
      match ops[0]
      case Put(num) =>
        b.AppendInt(num.kind, num.x);
        got := PlayOn(b, ops[1..]);
      case Get(kind) =>
        ghost var w := kind.Width();
        var x := b.ReadInt(kind);
        ReadIsDecode(kind, x, old(b.Contents()), b.Contents());
        var rest := PlayOn(b, ops[1..]);
        got := [Typed(kind, x)] + rest;
    }
  }

  lemma ReadIsDecode(k: Kind, x: int, before: seq<byte>, after: seq<byte>)
    requires k.Holds(x) && Encode(k, x) + after == before
    ensures k.Width() <= |before| && before[..k.Width()] == Encode(k, x) && before[k.Width()..] == after
    ensures Decode(k, before[..k.Width()]) == x
  {
    assert before[..k.Width()] == Encode(k, x);
    SignedRoundTrip(k, x);
  }

  /** So integers written to a Buffer and read back in step come out in order and unchanged. */
  method WriteThenRead(b: Buffer, ghost unread: seq<Num>, ops: seq<IntOp>) returns (got: seq<Num>, ghost left: seq<Num>)
    requires b.Valid() && b.Contents() == Layout(unread) && InStep(unread, ops)
    modifies b, b.data
    ensures b.Valid() && b.Contents() == Layout(left)
    ensures got + left == unread + Puts(ops) && |got| == Gets(ops)
  {
    BytesFollowQueue(unread, ops);
    QueueKeepsAll(unread, ops);
    got := PlayOn(b, ops);
    left := Left(unread, ops);
  }

  /** And an integer prepended to a Buffer is read first, and reading it gives the old content back. */
  method PrependThenRead(b: Buffer, num: Num) returns (got: Num)
    requires b.Valid() && num.kind.Width() <= b.readerIndex
    modifies b, b.data
    ensures b.Valid() && b.data == old(b.data)
    ensures got == num && b.Contents() == old(b.Contents())
  {
    b.PrependInt(num.kind, num.x);
    ghost var both := b.Contents();
    var x := b.ReadInt(num.kind);
    ReadIsDecode(num.kind, x, both, b.Contents());
    assert both == Encode(num.kind, num.x) + old(b.Contents());
    ReadIsDecode(num.kind, num.x, both, old(b.Contents()));
    got := Typed(num.kind, x);
  }
}
