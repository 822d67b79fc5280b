/**
 The pipe of module PipeRing with the positions of lib/pipe.c: `off_t`, 32 bits and
 signed.  It is the pipe without bounds for 2^31 bytes, and then it is not.
 */
module PipeWidth {
  import opened Wrappers
  import opened Common
  import opened PipeRing

  const TWO31: nat := 0x8000_0000
  const TWO32: nat := 0x1_0000_0000

  /** The index `pos % PIPEBUFSIZ` with C's remainder; None if it is negative. */
  function Index(pos: nat): Option<nat> {
    var p := Int32(pos);
    if p >= 0 then Some(p % PIPEBUFSIZ) else if -p % PIPEBUFSIZ == 0 then Some(0) else None
  }

  /**
   PipeRing.Next on positions kept as 32-bit words.  The writer's test adds and compares
   them as unsigned numbers, because sizeof is unsigned.  None is an access outside the buffer.
   */
  function Next32(s: State, a: Step): Option<State>
    requires |s.buf| == PIPEBUFSIZ && Enabled(s, a)
  {
    match a
    case ReaderTests => Some(if s.rpos == s.wpos then s else s.(reader := ReadTake))
    case ReaderTakes =>
      (match Index(s.rpos)
       case None => None
       case Some(i) => Some(s.(got := s.got + [s.buf[i]], reader := ReadAdvance)))
    case ReaderAdvances => Some(s.(rpos := (s.rpos + 1) % TWO32, reader := ReadTest))
    case WriterTests => Some(if s.wpos >= (s.rpos + PIPEBUFSIZ) % TWO32 then s else s.(writer := WriteStore))
    case WriterStores(b) =>
      (match Index(s.wpos)
       case None => None
       case Some(i) => Some(s.(buf := s.buf[i := b], sent := s.sent + [b], writer := WriteAdvance)))
    case WriterAdvances => Some(s.(wpos := (s.wpos + 1) % TWO32, writer := WriteTest))
  }

  /** The same state with 32-bit positions. */
  function Low(s: State): State {
    s.(rpos := s.rpos % TWO32, wpos := s.wpos % TWO32)
  }

  predicate IndexFits(pos: nat) {
    pos % TWO32 < TWO31 || pos % PIPEBUFSIZ == 0
  }

  /** When the 32-bit positions do for a step. */
  predicate Fits(s: State, a: Step) {
    match a
    case ReaderTakes => IndexFits(s.rpos)
    case WriterStores(_) => IndexFits(s.wpos)
    case WriterTests => s.rpos % TWO32 + PIPEBUFSIZ < TWO32 || s.rpos / TWO32 < s.wpos / TWO32
    case _ => true
  }

  lemma {:induction false} AddMultiple(y: nat, m: nat)
    ensures (y + PIPEBUFSIZ * m) % PIPEBUFSIZ == y % PIPEBUFSIZ
  {
    if m > 0 {
      AddMultiple(y, m - 1);
      assert y + PIPEBUFSIZ * m == y + PIPEBUFSIZ * (m - 1) + PIPEBUFSIZ;
    }
  }

  /** 2^32 is a multiple of the size of the buffer. */
  lemma SameIndex(pos: nat)
    ensures pos % TWO32 % PIPEBUFSIZ == pos % PIPEBUFSIZ
  {
    var q, y := pos / TWO32, pos % TWO32;
    assert pos == y + PIPEBUFSIZ * (TWO32 / PIPEBUFSIZ * q);
    AddMultiple(y, TWO32 / PIPEBUFSIZ * q);
  }

  lemma IndexIff(pos: nat)
    ensures Index(pos % TWO32) == Some(pos % PIPEBUFSIZ) <==> IndexFits(pos)
    ensures Index(pos % TWO32).None? <==> !IndexFits(pos)
  {
    SameIndex(pos);
    IndexLow(pos % TWO32);
    hide Index;
  }

  lemma IndexLow(y: nat)
    requires y < TWO32
    ensures Index(y) == if y < TWO31 || y % PIPEBUFSIZ == 0 then Some(y % PIPEBUFSIZ) else None
  {
    if y >= TWO31 {
      assert (TWO32 - y) % PIPEBUFSIZ == 0 <==> y % PIPEBUFSIZ == 0;
    }
  }

  lemma TestIff(rpos: nat, wpos: nat)
    requires rpos <= wpos <= rpos + PIPEBUFSIZ
    ensures rpos % TWO32 == wpos % TWO32 <==> rpos == wpos
    ensures (wpos % TWO32 >= (rpos % TWO32 + PIPEBUFSIZ) % TWO32 <==> wpos >= rpos + PIPEBUFSIZ)
      <==> (rpos % TWO32 + PIPEBUFSIZ < TWO32 || rpos / TWO32 < wpos / TWO32)
  {
  }

  lemma AdvanceLow(pos: nat)
    ensures (pos % TWO32 + 1) % TWO32 == (pos + 1) % TWO32
  {
  }

  /** A step on 32-bit positions is the step on unbounded ones if and only if they do for it. */
  lemma StepIff(s: State, a: Step)
    requires Inv(s) && Enabled(s, a)
    ensures Next32(Low(s), a) == Some(Low(Next(s, a))) <==> Fits(s, a)
  {
    hide Index, IndexFits;
    IndexIff(s.rpos);
    IndexIff(s.wpos);
    TestIff(s.rpos, s.wpos);
    AdvanceLow(s.rpos);
    AdvanceLow(s.wpos);
  }

  lemma Ordered(s: State)
    requires Inv(s)
    ensures s.rpos <= s.wpos && |s.buf| == PIPEBUFSIZ
  {
  }

  lemma SameLow(s: State, a: Step)
    requires |s.buf| == PIPEBUFSIZ && Enabled(s, a) && s.rpos <= s.wpos < TWO31
    ensures Low(s) == s && Low(Next(s, a)) == Next(s, a) && Fits(s, a)
  {
  }

  /** Below 2^31 nothing is different. */
  lemma SmallStep(s: State, a: Step)
    requires Inv(s) && Enabled(s, a) && s.wpos < TWO31
    ensures Next32(s, a) == Some(Next(s, a))
  {
    hide Next32, Next, Inv, Enabled, Fits, Low;
    Ordered(s);
    StepIff(s, a);
    SameLow(s, a);
  }

  lemma SentGrows(s: State, a: Step)
    requires |s.buf| == PIPEBUFSIZ && Enabled(s, a) && Next32(s, a).Some?
    ensures |s.sent| <= |Next32(s, a).value.sent|
  {
    hide Index;
  }

  ghost predicate Run32(states: seq<State>, steps: seq<Step>) {
    && |states| == |steps| + 1
    && (forall i :: 0 <= i < |states| ==> |states[i].buf| == PIPEBUFSIZ)
    && (forall i :: 0 <= i < |steps| ==>
          Enabled(states[i], steps[i]) && Next32(states[i], steps[i]) == Some(states[i + 1]))
  }

  /** The pipe of the source is a FIFO in every interleaving, for the first 2^31 bytes. */
  lemma {:induction false} Run32IsFifo(states: seq<State>, steps: seq<Step>, buf: seq<nat>, i: nat)
    requires Run32(states, steps) && i < |states| && |buf| == PIPEBUFSIZ && |states[i].sent| < TWO31
    requires states[0] == State(0, 0, buf, ReadTest, WriteTest, [], [])
    ensures Inv(states[i])
    ensures 0 <= states[i].wpos - states[i].rpos <= PIPEBUFSIZ && states[i].got <= states[i].sent
  {
    if i > 0 {
      var s, a := states[i - 1], steps[i - 1];
      SentGrows(s, a);
      hide Next32, Next, Enabled;
      Run32IsFifo(states, steps, buf, i - 1);
      SmallStep(s, a);
      StepKeeps(s, a);
    }
  }

  // --------------------------------------------------------------- the 2^31st byte

  /** A pipe that n bytes have gone through. */
  ghost predicate Drained(s: State, n: nat) {
    s.rpos == s.wpos == n && s.reader.ReadTest? && s.writer.WriteTest? && |s.buf| == PIPEBUFSIZ
  }

  lemma Extend(states: seq<State>, steps: seq<Step>, a: Step)
    requires Run32(states, steps) && Enabled(states[|steps|], a) && Next32(states[|steps|], a).Some?
    requires |Next32(states[|steps|], a).value.buf| == PIPEBUFSIZ
    ensures Run32(states + [Next32(states[|steps|], a).value], steps + [a])
  {
    hide Next32, Enabled;
  }

  lemma RunLength(states: seq<State>, steps: seq<Step>)
    requires Run32(states, steps)
    ensures |states| == |steps| + 1
  {
  }

  /** One byte goes through. */
  lemma OneByte(states: seq<State>, steps: seq<Step>, n: nat) returns (states1: seq<State>, steps1: seq<Step>)
    requires Run32(states, steps) && Drained(states[|steps|], n) && n <= TWO31
    ensures Run32(states1, steps1) && Drained(states1[|steps1|], n + 1) && states1[0] == states[0]
  {
    hide Run32, Index, Int32;
    RunLength(states, steps);
    states1, steps1 := states, steps;
    var todo := [WriterTests, WriterStores(0), WriterAdvances, ReaderTests, ReaderTakes, ReaderAdvances];
    IndexIff(n);
    for k := 0 to 6
      invariant Run32(states1, steps1) && |states1| == |steps1| + 1 && states1[0] == states[0]
      invariant |states1[|steps1|].buf| == PIPEBUFSIZ
      invariant var s := states1[|steps1|];
        && s.rpos == (if k < 6 then n else n + 1) && s.wpos == (if k < 3 then n else n + 1)
        && s.writer == (if k == 1 then WriteStore else if k == 2 then WriteAdvance else WriteTest)
        && s.reader == (if k == 4 then ReadTake else if k == 5 then ReadAdvance else ReadTest)
    {
      var s := states1[|steps1|];
      Extend(states1, steps1, todo[k]);
      states1, steps1 := states1 + [Next32(s, todo[k]).value], steps1 + [todo[k]];
    }
  }

  lemma {:induction false} Drains(buf: seq<nat>, n: nat) returns (states: seq<State>, steps: seq<Step>)
    requires |buf| == PIPEBUFSIZ && n <= TWO31 + 1
    ensures Run32(states, steps) && Drained(states[|steps|], n)
    ensures states[0] == State(0, 0, buf, ReadTest, WriteTest, [], [])
    decreases n
  {
    if n == 0 {
      states, steps := [State(0, 0, buf, ReadTest, WriteTest, [], [])], [];
    } else {
      states, steps := Drains(buf, n - 1);
      states, steps := OneByte(states, steps, n - 1);
    }
  }

  /** After 2^31 bytes and one more, the pipe of the source stores outside its buffer. */
  lemma FallsOff(buf: seq<nat>) returns (states: seq<State>, steps: seq<Step>)
    requires |buf| == PIPEBUFSIZ
    ensures Run32(states, steps) && states[0] == State(0, 0, buf, ReadTest, WriteTest, [], [])
    ensures var s := states[|steps|];
      s.wpos == TWO31 + 1 && Enabled(s, WriterStores(0)) && Next32(s, WriterStores(0)) == None
  {
    states, steps := Drains(buf, TWO31 + 1);
    var s := states[|steps|];
    Extend(states, steps, WriterTests);
    states, steps := states + [Next32(s, WriterTests).value], steps + [WriterTests];
  }
}
