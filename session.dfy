/**
 * The batch-path session of the compression scheme as pure functions over the
 * context's contents: level routing, the accumulate / compress-once / drain
 * step, and runs of steps, with the properties the protocol relies on.
 */
module Session {
  import opened Types

  /**
   * The Zopfli compressor producing the gzip container: deterministic in the
   * whole input and the iteration count. None stands for a NULL output buffer.
   */
  type Compressor = (seq<byte>, int) -> Option<seq<byte>>

  /**
   * The batch fields of a CompressionContext: the accumulated input, the
   * stored output (None while output_buffer is NULL) and the delivery cursor
   * output_used.
   */
  datatype State = State(input: seq<byte>, output: Option<seq<byte>>, used: nat)

  /** A zero-initialised context. */
  const EMPTY := State([], None, 0)

  /** The bytes held by the stored output; a NULL buffer holds none. */
  function Stored(s: State): seq<byte>
  {
    if s.output.Some? then s.output.value else []
  }

  /** The cursor never passes the end of the stored output. */
  predicate Valid(s: State)
  {
    s.used <= |Stored(s)|
  }

  /** Iteration counts for levels 6..10 (the zopfli_iterations table). */
  const ZOPFLI_ITERATIONS: seq<int> := [1, 5, 10, 15, 20]

  /** The iteration count a batch level runs Zopfli with. */
  function Iterations(level: int): (n: int)
    requires 6 <= level <= 10
    ensures n == if level == 6 then 1 else 5 * (level - 6)
  {
    ZOPFLI_ITERATIONS[level - 6]
  }

  /** Where a requested compression level sends a call. */
  datatype Route = RejectLevel | ToDelegate(intensity: int) | ToBatch(iterations: int)

  function RouteFor(level: int): (r: Route)
    ensures r.RejectLevel? <==> level < 0 || 10 < level
    ensures r.ToDelegate? <==> 0 <= level <= 5
    ensures r.ToDelegate? ==> r.intensity == 2 * level
    ensures r.ToBatch? ==> 6 <= level <= 10 && r.iterations == Iterations(level)
  {
    if level < 0 || level > 10 then RejectLevel
    else if level <= 5 then ToDelegate(level * 2)
    else ToBatch(Iterations(level))
  }

  /**
   * What one Compress call reports: E_INVALIDARG with no out-parameter
   * written, a hand-off to the delegate's Compress with the given intensity
   * (whose results are the delegate's own), or a batch-path status with the
   * input_used and output_used out-parameters.
   */
  datatype Reply =
    | Rejected
    | Delegated(intensity: int)
    | Returned(status: HResult, inputUsed: int, outputUsed: int)

  /**
   * The new batch fields, the reply, and the bytes the batch path writes to
   * the host's output buffer (none for a rejected or delegated call: what the
   * delegate writes is its own and not part of this model).
   */
  datatype Outcome = Outcome(state: State, reply: Reply, produced: seq<byte>)

  function Min(a: nat, b: nat): nat
  {
    if a < b then a else b
  }

  /** A slice of a buffer is its two adjacent sub-slices, one after the other. */
  lemma SliceSplit(a: seq<byte>, i: nat, j: nat, k: nat)
    requires i <= j <= k <= |a|
    ensures a[i..k] == a[i..j] + a[j..k]
  {
  }

  /**
   * Hands back the next slice of the stored output: as much as the host's
   * capacity allows, never more than is left.
   */
  function Drain(s: State, capacity: nat): (o: Outcome)
    requires Valid(s)
    ensures Valid(o.state) && o.state.input == s.input && o.state.output == s.output
    ensures o.state.used == s.used + |o.produced|
    ensures Stored(s)[..o.state.used] == Stored(s)[..s.used] + o.produced
    ensures |o.produced| <= capacity
    ensures |o.produced| == capacity || o.state.used == |Stored(s)|
    ensures o.reply == Returned(if o.state.used == |Stored(s)| then S_FALSE else S_OK, 0, |o.produced|)
  {
    var out := Stored(s);
    if s.used == |out| then
      Outcome(s, Returned(S_FALSE, 0, 0), [])
    else
      var k := Min(capacity, |out| - s.used);
      var t := s.(used := s.used + k);
      SliceSplit(out, 0, s.used, t.used);
      Outcome(t, Returned(if t.used == |out| then S_FALSE else S_OK, 0, k), out[s.used..t.used])
  }

  /**
   * An end-of-input call on the batch path: compress the whole accumulated
   * input while the cursor is still at zero, then drain.
   */
  function EndOfInput(s: State, capacity: nat, iterations: int, zopfli: Compressor): (o: Outcome)
    requires Valid(s)
    ensures Valid(o.state) && o.state.input == s.input
    ensures s.used != 0 ==> o.state.output == s.output
    ensures s.used == 0 ==> o.state.output == zopfli(s.input, iterations)
    ensures o.reply.Returned? && o.reply.inputUsed == 0 && o.reply.outputUsed == |o.produced|
    ensures o.reply.status in {S_OK, S_FALSE, E_OUTOFMEMORY, E_FAIL}
    ensures o.reply.status == E_OUTOFMEMORY <==> s.used == 0 && zopfli(s.input, iterations).None?
    ensures o.reply.status == E_FAIL <==> s.used == 0 && zopfli(s.input, iterations) == Some([])
    ensures o.reply.status == S_FALSE <==> Stored(o.state) != [] && o.state.used == |Stored(o.state)|
    ensures o.state.used == s.used + |o.produced| && |o.produced| <= capacity
    ensures o.produced == Stored(o.state)[s.used..o.state.used]
    ensures o.reply.status == S_OK ==> |o.produced| == capacity
  {
    if s.used == 0 then
      var compressed := zopfli(s.input, iterations);
      var t := s.(output := compressed);
      if compressed.None? then Outcome(t, Returned(E_OUTOFMEMORY, 0, 0), [])
      else if |compressed.value| == 0 then Outcome(t, Returned(E_FAIL, 0, 0), [])
      else Drain(t, capacity)
    else
      Drain(s, capacity)
  }

  /**
   * One call on the batch path (levels 6..10) with the chunk it was handed:
   * a non-empty chunk is appended whole, an empty one is end-of-input.
   */
  function Feed(s: State, iterations: int, chunk: seq<byte>, capacity: nat, zopfli: Compressor): (o: Outcome)
    requires Valid(s)
    ensures Valid(o.state)
    ensures chunk != [] ==> o.state == s.(input := s.input + chunk)
    ensures chunk != [] ==> o.reply == Returned(S_OK, |chunk|, 0) && o.produced == []
    ensures chunk == [] ==> o == EndOfInput(s, capacity, iterations, zopfli)
  {
    if chunk != [] then
      Outcome(s.(input := s.input + chunk), Returned(S_OK, |chunk|, 0), [])
    else
      EndOfInput(s, capacity, iterations, zopfli)
  }

  /**
   * One Compress call on a non-NULL context, handed `input[..inputSize]`;
   * a size of zero or below is the end-of-input signal.
   */
  function Step(s: State, level: int, input: seq<byte>, inputSize: int, capacity: nat, zopfli: Compressor): (o: Outcome)
    requires Valid(s) && inputSize <= |input|
    ensures Valid(o.state)
    ensures level < 0 || 10 < level ==> o == Outcome(s, Rejected, [])
    ensures 0 <= level <= 5 ==> o == Outcome(s, Delegated(2 * level), [])
    ensures 6 <= level <= 10 ==>
      o == Feed(s, Iterations(level), if 0 < inputSize then input[..inputSize] else [], capacity, zopfli)
    ensures 6 <= level <= 10 && 0 < inputSize ==>
      o.state.input == s.input + input[..inputSize] && o.reply == Returned(S_OK, inputSize, 0)
    ensures s.input <= o.state.input && s.used <= o.state.used
    ensures s.used != 0 ==> o.state.output == s.output
  {
    match RouteFor(level)
    case RejectLevel => Outcome(s, Rejected, [])
    case ToDelegate(intensity) => Outcome(s, Delegated(intensity), [])
    case ToBatch(iterations) =>
      Feed(s, iterations, if inputSize > 0 then input[..inputSize] else [], capacity, zopfli)
  }

  // ---------------------------------------------------------------------------
  // Runs of calls made by one host on one context at one batch level

  /** The arguments of one call in a run: the input chunk (empty for end-of-input) and the output capacity. */
  datatype Request = Request(chunk: seq<byte>, capacity: nat)

  /** Every call hands over a non-empty chunk. */
  predicate AllChunks(qs: seq<Request>)
  {
    forall i :: 0 <= i < |qs| ==> qs[i].chunk != []
  }

  /** Every call is an end-of-input call. */
  predicate AllEnds(qs: seq<Request>)
  {
    forall i :: 0 <= i < |qs| ==> qs[i].chunk == []
  }

  /** The bytes a run hands over, in order. */
  function Chunks(qs: seq<Request>): seq<byte>
  {
    if qs == [] then [] else qs[0].chunk + Chunks(qs[1..])
  }

  function TotalCapacity(qs: seq<Request>): nat
  {
    if qs == [] then 0 else qs[0].capacity + TotalCapacity(qs[1..])
  }

  /** The context after a run, everything written to the host, and every reply. */
  datatype Trace = Trace(state: State, produced: seq<byte>, replies: seq<Reply>)

  /**
   * A run of calls, each taking up where the previous left the context,
   * for any per-call step.
   */
  function Run(step: (State, Request) -> Outcome, s: State, qs: seq<Request>): (t: Trace)
    ensures |t.replies| == |qs|
    decreases |qs|
  {
    if qs == [] then Trace(s, [], [])
    else
      var o := step(s, qs[0]);
      var t := Run(step, o.state, qs[1..]);
      Trace(t.state, o.produced + t.produced, [o.reply] + t.replies)
  }

  /**
   * One batch-path call as a step of a run. The Valid guard only makes the
   * step total: a run starts from a Valid context and every call keeps it
   * Valid (RunValid), so the other branch is never taken.
   */
  function Call(iterations: int, zopfli: Compressor): (State, Request) -> Outcome
  {
    (s: State, q: Request) =>
      if Valid(s) then Feed(s, iterations, q.chunk, q.capacity, zopfli) else Outcome(s, Rejected, [])
  }

  /** Batch-path calls keep the cursor within the stored output, however many there are. */
  lemma {:induction false} RunValid(s: State, iterations: int, qs: seq<Request>, zopfli: Compressor)
    requires Valid(s)
    ensures Valid(Run(Call(iterations, zopfli), s, qs).state)
    decreases |qs|
  {
    if qs != [] {
      RunValid(Call(iterations, zopfli)(s, qs[0]).state, iterations, qs[1..], zopfli);
    }
  }

  /** A run of batch-path calls at one iteration count. */
  function Replay(s: State, iterations: int, qs: seq<Request>, zopfli: Compressor): (t: Trace)
    requires Valid(s)
    ensures Valid(t.state) && |t.replies| == |qs|
  {
    RunValid(s, iterations, qs, zopfli);
    Run(Call(iterations, zopfli), s, qs)
  }

  /** A run of consecutive calls is the run of its first part continued by the run of its second part. */
  lemma {:induction false} RunConcat(step: (State, Request) -> Outcome, s: State, qs1: seq<Request>, qs2: seq<Request>)
    ensures var t1 := Run(step, s, qs1);
            var t2 := Run(step, t1.state, qs2);
            Run(step, s, qs1 + qs2) == Trace(t2.state, t1.produced + t2.produced, t1.replies + t2.replies)
    decreases |qs1|
  {
    if qs1 == [] {
      assert qs1 + qs2 == qs2;
    } else {
      var qs := qs1 + qs2;
      assert qs[0] == qs1[0];
      assert qs[1..] == qs1[1..] + qs2;
      var o := step(s, qs1[0]);
      RunConcat(step, o.state, qs1[1..], qs2);
      var r := Run(step, o.state, qs1[1..]);
      var t2 := Run(step, r.state, qs2);
      assert o.produced + (r.produced + t2.produced) == (o.produced + r.produced) + t2.produced;
      assert [o.reply] + (r.replies + t2.replies) == ([o.reply] + r.replies) + t2.replies;
    }
  }

  // ---------------------------------------------------------------------------
  // Properties

  /** The iteration table: levels 6, 7, 8, 9, 10 run 1, 5, 10, 15, 20 iterations. */
  lemma IterationTable()
    ensures RouteFor(6) == ToBatch(1) && RouteFor(7) == ToBatch(5) && RouteFor(8) == ToBatch(10)
    ensures RouteFor(9) == ToBatch(15) && RouteFor(10) == ToBatch(20)
    ensures RouteFor(0) == ToDelegate(0) && RouteFor(-1) == RejectLevel && RouteFor(11) == RejectLevel
  {
  }

  /** One step of a non-empty run: the first call, then the rest of the run from where it left the context. */
  lemma ReplayCons(s: State, iterations: int, qs: seq<Request>, zopfli: Compressor)
    requires Valid(s) && qs != []
    ensures var o := Feed(s, iterations, qs[0].chunk, qs[0].capacity, zopfli);
            var t := Replay(o.state, iterations, qs[1..], zopfli);
            Replay(s, iterations, qs, zopfli) == Trace(t.state, o.produced + t.produced, [o.reply] + t.replies)
  {
  }

  /** A batch-path run of consecutive calls is the run of its first part continued by the run of its second part. */
  lemma ReplayConcat(s: State, iterations: int, qs1: seq<Request>, qs2: seq<Request>, zopfli: Compressor)
    requires Valid(s)
    ensures var t1 := Replay(s, iterations, qs1, zopfli);
            var t2 := Replay(t1.state, iterations, qs2, zopfli);
            Replay(s, iterations, qs1 + qs2, zopfli) == Trace(t2.state, t1.produced + t2.produced, t1.replies + t2.replies)
  {
    RunConcat(Call(iterations, zopfli), s, qs1, qs2);
  }

  /**
   * Accumulation: every non-empty chunk is consumed whole, the input buffer
   * becomes the old buffer followed by all chunks in order, and the stored
   * output and cursor stay put.
   */
  lemma {:induction false} ReplayChunks(s: State, iterations: int, qs: seq<Request>, zopfli: Compressor)
    requires Valid(s) && AllChunks(qs)
    ensures var t := Replay(s, iterations, qs, zopfli);
            && t.state == s.(input := s.input + Chunks(qs))
            && t.produced == []
            && forall i :: 0 <= i < |qs| ==> t.replies[i] == Returned(S_OK, |qs[i].chunk|, 0)
    decreases |qs|
  {
    if qs != [] {
      var o := Feed(s, iterations, qs[0].chunk, qs[0].capacity, zopfli);
      ReplayCons(s, iterations, qs, zopfli);
      ReplayChunks(o.state, iterations, qs[1..], zopfli);
      var rest := Replay(o.state, iterations, qs[1..], zopfli);
      assert s.input + Chunks(qs) == (s.input + qs[0].chunk) + Chunks(qs[1..]);
      forall i | 0 <= i < |qs|
        ensures Replay(s, iterations, qs, zopfli).replies[i] == Returned(S_OK, |qs[i].chunk|, 0)
      {
        if 0 < i {
          assert Replay(s, iterations, qs, zopfli).replies[i] == rest.replies[i - 1];
        }
      }
    }
  }

  lemma {:induction false} PrefixCapacity(qs: seq<Request>, i: nat)
    requires 0 < i < |qs|
    ensures TotalCapacity(qs[..i + 1]) == qs[0].capacity + TotalCapacity(qs[1..][..i])
  {
    assert qs[..i + 1][1..] == qs[1..][..i];
  }

  /**
   * Draining after compression: a run of end-of-input calls hands out the
   * stored output from the cursor on, without gap, duplicate or reorder,
   * as far as the capacities allow, and moves nothing but the cursor.
   */
  lemma {:induction false} ReplayDrain(s: State, iterations: int, qs: seq<Request>, zopfli: Compressor)
    requires Valid(s) && 0 < s.used && AllEnds(qs)
    ensures var t := Replay(s, iterations, qs, zopfli);
            && t.state == s.(used := s.used + Min(TotalCapacity(qs), |Stored(s)| - s.used))
            && t.produced == Stored(s)[s.used..t.state.used]
    decreases |qs|
  {
    if qs != [] {
      var o := Drain(s, qs[0].capacity);
      assert Feed(s, iterations, qs[0].chunk, qs[0].capacity, zopfli) == o;
      ReplayDrain(o.state, iterations, qs[1..], zopfli);
      var rest := Replay(o.state, iterations, qs[1..], zopfli);
      assert Replay(s, iterations, qs, zopfli) == Trace(rest.state, o.produced + rest.produced, [o.reply] + rest.replies);
      var out := Stored(s);
      SliceSplit(out, s.used, o.state.used, rest.state.used);
    }
  }

  /**
   * The statuses of a drain run: the call whose capacity reaches the end of
   * the stored output and every call after it report S_FALSE, the calls
   * before it S_OK.
   */
  lemma {:induction false} ReplayDrainReplies(s: State, iterations: int, qs: seq<Request>, zopfli: Compressor)
    requires Valid(s) && 0 < s.used && AllEnds(qs)
    ensures forall i :: 0 <= i < |qs| ==>
              Replay(s, iterations, qs, zopfli).replies[i].Returned? &&
              (Replay(s, iterations, qs, zopfli).replies[i].status == S_FALSE <==>
                 TotalCapacity(qs[..i + 1]) >= |Stored(s)| - s.used) &&
              (Replay(s, iterations, qs, zopfli).replies[i].status == S_OK <==>
                 TotalCapacity(qs[..i + 1]) < |Stored(s)| - s.used)
    decreases |qs|
  {
    if qs != [] {
      var o := Drain(s, qs[0].capacity);
      assert Feed(s, iterations, qs[0].chunk, qs[0].capacity, zopfli) == o;
      ReplayDrainReplies(o.state, iterations, qs[1..], zopfli);
      var rest := Replay(o.state, iterations, qs[1..], zopfli);
      var t := Replay(s, iterations, qs, zopfli);
      assert t.replies == [o.reply] + rest.replies;
      forall i | 0 <= i < |qs|
        ensures t.replies[i].Returned? &&
                (t.replies[i].status == S_FALSE <==> TotalCapacity(qs[..i + 1]) >= |Stored(s)| - s.used) &&
                (t.replies[i].status == S_OK <==> TotalCapacity(qs[..i + 1]) < |Stored(s)| - s.used)
      {
        if i == 0 {
          assert qs[..1][1..] == [];
        } else {
          PrefixCapacity(qs, i);
          assert t.replies[i] == rest.replies[i - 1];
        }
      }
    }
  }

  /**
   * The whole output, in order: from a context whose cursor is at zero, a run
   * of end-of-input calls compresses the accumulated input once, in effect,
   * and hands out the prefix of the result that the capacities cover. A
   * zero-capacity call on the way leaves the cursor at zero and the next call
   * compresses the same input again, to the same bytes.
   */
  lemma {:induction false} ReplayRoundTrip(s: State, iterations: int, qs: seq<Request>, zopfli: Compressor, z: seq<byte>)
    requires Valid(s) && s.used == 0 && AllEnds(qs)
    requires zopfli(s.input, iterations) == Some(z) && z != []
    ensures var t := Replay(s, iterations, qs, zopfli);
            && t.produced == z[..Min(TotalCapacity(qs), |z|)]
            && (qs != [] ==> t.state == State(s.input, Some(z), |t.produced|))
    decreases |qs|
  {
    if qs != [] {
      var o := Drain(State(s.input, Some(z), 0), qs[0].capacity);
      assert Feed(s, iterations, qs[0].chunk, qs[0].capacity, zopfli) == o;
      var rest := Replay(o.state, iterations, qs[1..], zopfli);
      assert Replay(s, iterations, qs, zopfli) == Trace(rest.state, o.produced + rest.produced, [o.reply] + rest.replies);
      if o.state.used == 0 {
        ReplayRoundTrip(o.state, iterations, qs[1..], zopfli, z);
      } else {
        ReplayDrain(o.state, iterations, qs[1..], zopfli);
        SliceSplit(z, 0, o.state.used, rest.state.used);
      }
    }
  }

  /**
   * The statuses of a run from cursor zero: call i reports S_FALSE exactly
   * when the capacities of calls 0..i cover the whole Zopfli output, S_OK
   * before that.
   */
  lemma {:induction false} ReplayRoundTripReplies(s: State, iterations: int, qs: seq<Request>, zopfli: Compressor, z: seq<byte>)
    requires Valid(s) && s.used == 0 && AllEnds(qs)
    requires zopfli(s.input, iterations) == Some(z) && z != []
    ensures forall i :: 0 <= i < |qs| ==>
              Replay(s, iterations, qs, zopfli).replies[i].Returned? &&
              (Replay(s, iterations, qs, zopfli).replies[i].status == S_FALSE <==> TotalCapacity(qs[..i + 1]) >= |z|) &&
              (Replay(s, iterations, qs, zopfli).replies[i].status == S_OK <==> TotalCapacity(qs[..i + 1]) < |z|)
    decreases |qs|
  {
    if qs != [] {
      var o := Drain(State(s.input, Some(z), 0), qs[0].capacity);
      assert Feed(s, iterations, qs[0].chunk, qs[0].capacity, zopfli) == o;
      var rest := Replay(o.state, iterations, qs[1..], zopfli);
      var t := Replay(s, iterations, qs, zopfli);
      assert t.replies == [o.reply] + rest.replies;
      if o.state.used == 0 {
        ReplayRoundTripReplies(o.state, iterations, qs[1..], zopfli, z);
      } else {
        ReplayDrainReplies(o.state, iterations, qs[1..], zopfli);
      }
      forall i | 0 <= i < |qs|
        ensures t.replies[i].Returned? && (t.replies[i].status == S_FALSE <==> TotalCapacity(qs[..i + 1]) >= |z|) &&
                (t.replies[i].status == S_OK <==> TotalCapacity(qs[..i + 1]) < |z|)
      {
        if i == 0 {
          assert qs[..1][1..] == [];
        } else {
          PrefixCapacity(qs, i);
          assert t.replies[i] == rest.replies[i - 1];
        }
      }
    }
  }

  /**
   * A whole session on a fresh context at a batch level: non-empty chunks,
   * then end-of-input calls with enough capacity in all. The host receives
   * exactly the Zopfli output of the concatenated chunks, and the last call
   * reports S_FALSE.
   */
  lemma {:induction false} EndToEnd(level: int, chunks: seq<Request>, ends: seq<Request>, zopfli: Compressor, z: seq<byte>)
    requires 6 <= level <= 10 && AllChunks(chunks) && AllEnds(ends)
    requires zopfli(Chunks(chunks), Iterations(level)) == Some(z) && z != []
    requires |z| <= TotalCapacity(ends)
    ensures var t := Replay(EMPTY, Iterations(level), chunks + ends, zopfli);
            && t.produced == z
            && t.state == State(Chunks(chunks), Some(z), |z|)
            && t.replies[|t.replies| - 1].Returned?
            && t.replies[|t.replies| - 1].status == S_FALSE
  {
    var n := Iterations(level);
    ReplayChunks(EMPTY, n, chunks, zopfli);
    ReplayConcat(EMPTY, n, chunks, ends, zopfli);
    var t1 := Replay(EMPTY, n, chunks, zopfli);
    var s1 := t1.state;
    assert s1 == State(Chunks(chunks), None, 0) && t1.produced == [];
    ReplayRoundTrip(s1, n, ends, zopfli, z);
    ReplayRoundTripReplies(s1, n, ends, zopfli, z);
    var t2 := Replay(s1, n, ends, zopfli);
    assert ends[..|ends|] == ends;
    assert t2.produced == z;
    assert t2.replies[|ends| - 1].Returned? && t2.replies[|ends| - 1].status == S_FALSE;
    var t := Replay(EMPTY, n, chunks + ends, zopfli);
    assert t == Trace(t2.state, t1.produced + t2.produced, t1.replies + t2.replies);
    assert t.replies[|t.replies| - 1] == t2.replies[|ends| - 1];
  }

  /**
   * Compress once: once the cursor has moved off zero, no later call touches
   * the stored output again, and the cursor and the input only grow.
   */
  lemma {:induction false} OutputFrozen(s: State, iterations: int, qs: seq<Request>, zopfli: Compressor)
    requires Valid(s) && 0 < s.used
    ensures var t := Replay(s, iterations, qs, zopfli);
            t.state.output == s.output && s.used <= t.state.used && s.input <= t.state.input
    decreases |qs|
  {
    if qs != [] {
      var o := Feed(s, iterations, qs[0].chunk, qs[0].capacity, zopfli);
      OutputFrozen(o.state, iterations, qs[1..], zopfli);
    }
  }

  /**
   * Drained is final: once the whole output has been handed out, any number
   * of further end-of-input calls return S_FALSE, produce nothing and leave
   * the context as it is.
   */
  lemma {:induction false} DrainedStaysDrained(s: State, iterations: int, qs: seq<Request>, zopfli: Compressor)
    requires Valid(s) && 0 < s.used == |Stored(s)| && AllEnds(qs)
    ensures var t := Replay(s, iterations, qs, zopfli);
            && t.state == s && t.produced == []
            && forall i :: 0 <= i < |qs| ==> t.replies[i] == Returned(S_FALSE, 0, 0)
    decreases |qs|
  {
    if qs != [] {
      DrainedStaysDrained(s, iterations, qs[1..], zopfli);
    }
  }

  /**
   * The recompression guard is the cursor, not a "compressed" flag: an
   * end-of-input call with zero capacity leaves the cursor at zero, so the
   * next end-of-input call compresses again and behaves as if the first had
   * not happened.
   */
  lemma ZeroCapacityRearms(s: State, level: int, input: seq<byte>, inputSize: int, capacity: nat, zopfli: Compressor)
    requires Valid(s) && s.used == 0 && 6 <= level <= 10 && inputSize <= 0 && inputSize <= |input|
    requires zopfli(s.input, Iterations(level)).Some? && zopfli(s.input, Iterations(level)).value != []
    ensures var o := Step(s, level, input, inputSize, 0, zopfli);
            && o.state.used == 0 && o.reply == Returned(S_OK, 0, 0)
            && Step(o.state, level, input, inputSize, capacity, zopfli) == Step(s, level, input, inputSize, capacity, zopfli)
  {
  }
}
