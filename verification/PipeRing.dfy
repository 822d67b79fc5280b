/**
 The ring buffer of a pipe (lib/pipe.c): one reader and one writer share rpos, wpos
 and 32 bytes without a lock.  First the two loops as programs, up to the point
 where they have to wait; then both threads interleaved step by step.
 */
module PipeRing {
  const PIPEBUFSIZ: nat := 32

  /** What a call comes to: it returns, sees that the other end is closed, or yields and tries again. */
  datatype Reading = Data(bytes: seq<nat>) | Eof | ReadWaits

  datatype Writing = Stored(count: nat) | NoReader | WriteWaits(progress: nat)

  /** The bytes between rpos and wpos. */
  function Queue(buf: seq<nat>, rpos: nat, wpos: nat): (q: seq<nat>)
    requires |buf| == PIPEBUFSIZ && rpos <= wpos
    ensures |q| == wpos - rpos
  {
    seq(wpos - rpos, k requires 0 <= k => buf[(rpos + k) % PIPEBUFSIZ])
  }

  /** Storing at wpos before advancing it extends the queue by one byte. */
  lemma StoreExtends(buf: seq<nat>, rpos: nat, wpos: nat, b: nat)
    requires |buf| == PIPEBUFSIZ && rpos <= wpos < rpos + PIPEBUFSIZ
    ensures Queue(buf[wpos % PIPEBUFSIZ := b], rpos, wpos + 1) == Queue(buf, rpos, wpos) + [b]
  {
  }

  lemma TakeShrinks(buf: seq<nat>, rpos: nat, wpos: nat)
    requires |buf| == PIPEBUFSIZ && rpos < wpos
    ensures Queue(buf, rpos, wpos) == [buf[rpos % PIPEBUFSIZ]] + Queue(buf, rpos + 1, wpos)
  {
  }

  class Pipe {
    var rpos: nat
    var wpos: nat
    const buf: array<nat>

    ghost predicate Valid()
      reads this, buf
    {
      buf.Length == PIPEBUFSIZ && rpos <= wpos <= rpos + PIPEBUFSIZ
    }

    ghost function Contents(): seq<nat>
      requires Valid()
      reads this, buf
    {
      Queue(buf[..], rpos, wpos)
    }

    constructor ()
      ensures Valid() && fresh(buf) && Contents() == []
    {
      rpos, wpos := 0, 0;
      buf := new nat[PIPEBUFSIZ];
    }

    /** devpipe_read up to the first wait: on a pipe with bytes in it, it never waits. */
    method DevpipeRead(n: nat, closed: bool) returns (r: Reading)
      requires Valid()
      modifies this`rpos
      ensures Valid()
      ensures n == 0 || old(Contents()) != [] ==>
        && r.Data? && |r.bytes| == (if n < |old(Contents())| then n else |old(Contents())|)
        && r.bytes + Contents() == old(Contents())
      ensures n > 0 && old(Contents()) == [] ==> r == (if closed then Eof else ReadWaits) && rpos == old(rpos)
    {
      hide Queue;
      ghost var q := Contents();
      var out: seq<nat> := [];
      while |out| < n
        invariant Valid() && |out| <= n && out + Contents() == q
        invariant rpos == old(rpos) + |out|
        decreases n - |out|
      {
        if rpos == wpos {
          if |out| > 0 {
            return Data(out);
          }
          return if closed then Eof else ReadWaits;
        }
        TakeShrinks(buf[..], rpos, wpos);
        var b := buf[rpos % PIPEBUFSIZ];
        ghost var rest := Queue(buf[..], rpos + 1, wpos);
        assert out + ([b] + rest) == (out + [b]) + rest;
        out := out + [b];
        rpos := rpos + 1;
      }
      r := Data(out);
    }

    /** devpipe_write up to the first wait: a prefix of the bytes is appended, all of them if there is room. */
    method DevpipeWrite(data: seq<nat>, closed: bool) returns (r: Writing)
      requires Valid()
      modifies this`wpos, buf
      ensures Valid()
      ensures var room := PIPEBUFSIZ - |old(Contents())|;
        && (|data| <= room ==> r == Stored(|data|) && Contents() == old(Contents()) + data)
        && (|data| > room ==>
              && r == (if closed then NoReader else WriteWaits(room))
              && Contents() == old(Contents()) + data[..room])
    {
      hide Queue;
      var i := 0;
      ghost var room := PIPEBUFSIZ - (wpos - rpos);
      while i < |data|
        invariant Valid() && i <= |data| && i <= room && wpos == old(wpos) + i && rpos == old(rpos)
        invariant Contents() == old(Contents()) + data[..i]
      {
        if wpos >= rpos + PIPEBUFSIZ {
          return if closed then NoReader else WriteWaits(i);
        }
        StoreExtends(buf[..], rpos, wpos, data[i]);
        ghost var q := buf[..];
        buf[wpos % PIPEBUFSIZ] := data[i];
        assert buf[..] == q[wpos % PIPEBUFSIZ := data[i]];
        wpos := wpos + 1;
        assert data[..i + 1] == data[..i] + [data[i]];
        i := i + 1;
      }
      assert data[..i] == data;
      r := Stored(i);
    }
  }

  // ------------------------------------------------- both threads, step by step

  /** Where the reader is: at its test, past it, or with the byte taken and rpos not yet advanced. */
  datatype ReaderAt = ReadTest | ReadTake | ReadAdvance

  datatype WriterAt = WriteTest | WriteStore | WriteAdvance

  /** `got` and `sent` record every byte taken and every byte stored. */
  datatype State = State(rpos: nat, wpos: nat, buf: seq<nat>, reader: ReaderAt, writer: WriterAt,
                         got: seq<nat>, sent: seq<nat>)

  datatype Step = ReaderTests | ReaderTakes | ReaderAdvances | WriterTests | WriterStores(b: nat) | WriterAdvances

  predicate Enabled(s: State, a: Step) {
    match a
    case ReaderTests => s.reader.ReadTest?
    case ReaderTakes => s.reader.ReadTake?
    case ReaderAdvances => s.reader.ReadAdvance?
    case WriterTests => s.writer.WriteTest?
    case WriterStores(_) => s.writer.WriteStore?
    case WriterAdvances => s.writer.WriteAdvance?
  }

  /** A test that fails is a wait, or a return to a caller that may call again. */
  function Next(s: State, a: Step): State
    requires |s.buf| == PIPEBUFSIZ && Enabled(s, a)
  {
    match a
    case ReaderTests => if s.rpos == s.wpos then s else s.(reader := ReadTake)
    case ReaderTakes => s.(got := s.got + [s.buf[s.rpos % PIPEBUFSIZ]], reader := ReadAdvance)
    case ReaderAdvances => s.(rpos := s.rpos + 1, reader := ReadTest)
    case WriterTests => if s.wpos >= s.rpos + PIPEBUFSIZ then s else s.(writer := WriteStore)
    case WriterStores(b) => s.(buf := s.buf[s.wpos % PIPEBUFSIZ := b], sent := s.sent + [b], writer := WriteAdvance)
    case WriterAdvances => s.(wpos := s.wpos + 1, writer := WriteTest)
  }

  ghost predicate Inv(s: State) {
    && |s.buf| == PIPEBUFSIZ && s.rpos <= s.wpos <= s.rpos + PIPEBUFSIZ
    && |s.got| == s.rpos + (if s.reader.ReadAdvance? then 1 else 0)
    && |s.sent| == s.wpos + (if s.writer.WriteAdvance? then 1 else 0)
    && (!s.reader.ReadTest? ==> s.rpos < s.wpos)
    && (!s.writer.WriteTest? ==> s.wpos < s.rpos + PIPEBUFSIZ)
    && (forall k :: s.rpos <= k < |s.sent| ==> s.buf[k % PIPEBUFSIZ] == s.sent[k])
    && s.got <= s.sent
  }

  lemma StoreKeeps(s: State, b: nat)
    requires Inv(s) && s.writer.WriteStore?
    ensures Inv(Next(s, WriterStores(b)))
  {
  }

  lemma StepKeeps(s: State, a: Step)
    requires Inv(s) && Enabled(s, a)
    ensures Inv(Next(s, a))
  {
    match a
    case WriterStores(b) => StoreKeeps(s, b);
    case ReaderTakes =>
      assert s.sent[..s.rpos + 1] == s.sent[..s.rpos] + [s.buf[s.rpos % PIPEBUFSIZ]];
    case _ =>
  }

  ghost predicate Run(states: seq<State>, steps: seq<Step>) {
    && |states| == |steps| + 1
    && (forall i :: 0 <= i < |states| ==> |states[i].buf| == PIPEBUFSIZ)
    && (forall i :: 0 <= i < |steps| ==> Enabled(states[i], steps[i]) && states[i + 1] == Next(states[i], steps[i]))
  }

  /**
   In every interleaving the pipe never holds fewer than 0 or more than 32 bytes, and
   the bytes read are the first bytes written, in order.
   */
  lemma {:induction false} RunIsFifo(states: seq<State>, steps: seq<Step>, buf: seq<nat>, i: nat)
    requires Run(states, steps) && i < |states| && |buf| == PIPEBUFSIZ
    requires states[0] == State(0, 0, buf, ReadTest, WriteTest, [], [])
    ensures Inv(states[i])
    ensures 0 <= states[i].wpos - states[i].rpos <= PIPEBUFSIZ && states[i].got <= states[i].sent
  {
    if i > 0 {
      RunIsFifo(states, steps, buf, i - 1);
      StepKeeps(states[i - 1], steps[i - 1]);
    }
  }

  /** What is between the two positions is exactly what was sent and not yet passed over. */
  lemma NothingLost(s: State)
    requires Inv(s)
    ensures Queue(s.buf, s.rpos, s.wpos) == s.sent[s.rpos..s.wpos]
    ensures s.reader.ReadTest? && s.writer.WriteTest? ==> s.got + Queue(s.buf, s.rpos, s.wpos) == s.sent
  {
  }

  // ------------------------------------------------------------------ progress

  /** Neither thread waits without need: the reader waits exactly at an empty pipe, the writer at a full one. */
  lemma WaitsIff(s: State)
    requires Inv(s)
    ensures s.reader.ReadTest? ==>
      (Next(s, ReaderTests) == s <==> Queue(s.buf, s.rpos, s.wpos) == [])
    ensures s.writer.WriteTest? ==>
      (Next(s, WriterTests) == s <==> |Queue(s.buf, s.rpos, s.wpos)| == PIPEBUFSIZ)
  {
  }

  /** The three steps for one byte. */
  function OneRead(s: State): State
    requires |s.buf| == PIPEBUFSIZ && s.reader.ReadTest? && s.rpos != s.wpos
  {
    Next(Next(Next(s, ReaderTests), ReaderTakes), ReaderAdvances)
  }

  lemma ReadGets(s: State)
    requires Inv(s) && s.reader.ReadTest? && s.rpos < s.wpos
    ensures Inv(OneRead(s))
    ensures OneRead(s) == s.(rpos := s.rpos + 1, got := s.got + [s.sent[s.rpos]])
  {
    StepKeeps(s, ReaderTests);
    StepKeeps(Next(s, ReaderTests), ReaderTakes);
    StepKeeps(Next(Next(s, ReaderTests), ReaderTakes), ReaderAdvances);
  }

  /** Three steps of the writer send one byte, if there is room. */
  lemma WriteSends(s: State, b: nat)
    requires Inv(s) && s.writer.WriteTest? && s.wpos < s.rpos + PIPEBUFSIZ
    ensures Enabled(Next(s, WriterTests), WriterStores(b))
    ensures var s1 := Next(Next(Next(s, WriterTests), WriterStores(b)), WriterAdvances);
      && Inv(s1) && s1.sent == s.sent + [b] && s1.writer.WriteTest?
      && (s1.rpos, s1.reader, s1.got) == (s.rpos, s.reader, s.got)
      && Queue(s1.buf, s1.rpos, s1.wpos) == Queue(s.buf, s.rpos, s.wpos) + [b]
  {
    StepKeeps(s, WriterTests);
    StepKeeps(Next(s, WriterTests), WriterStores(b));
    StepKeeps(Next(Next(s, WriterTests), WriterStores(b)), WriterAdvances);
    StoreExtends(s.buf, s.rpos, s.wpos, b);
  }

  ghost predicate ByReader(a: Step) {
    a.ReaderTests? || a.ReaderTakes? || a.ReaderAdvances?
  }

  /** From any reachable state, the reader alone gets every byte that the writer has sent, and waits for none. */
  lemma {:induction false} ReaderDrains(s: State) returns (states: seq<State>, steps: seq<Step>)
    requires Inv(s) && s.reader.ReadTest? && s.writer.WriteTest?
    ensures Run(states, steps) && states[0] == s && (forall i :: 0 <= i < |steps| ==> ByReader(steps[i]))
    ensures |steps| == 3 * (s.wpos - s.rpos) && states[|steps|].got == s.sent
    decreases s.wpos - s.rpos
  {
    states, steps := [s], [];
    if s.rpos < s.wpos {
      ReadGets(s);
      var rest, more := ReaderDrains(OneRead(s));
      var s1 := Next(s, ReaderTests);
      states, steps := [s, s1, Next(s1, ReaderTakes)] + rest, [ReaderTests, ReaderTakes, ReaderAdvances] + more;
    }
  }
}
