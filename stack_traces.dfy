/**
 * The synthetic stack trace built when no native one is available: starting
 * from a frame, follow the caller relation and write one "at <name>" line
 * per caller visited.
 *
 * Frames are abstract. A call stack gives each frame its caller, if it has
 * one, and the source text of the function running in it.
 */
module StackTraces {
  import opened JsValues
  import opened FunctionNames

  /** The depth bound of the walk, as the source names it. */
  const MAX_STACKTRACE_DEEP := 20

  /**
   * The most lines a walk produces. The bound is tested with a post-increment
   * after each push, so the loop stops only after the 22nd frame.
   */
  const MAX_LINES := MAX_STACKTRACE_DEEP + 2

  datatype CallStack<!F(==)> = CallStack(callerOf: map<F, F>, source: F -> string)

  /** A frame that is its own caller, as the top of the chain looks in some hosts. */
  predicate SelfCaller<F(==)>(cs: CallStack<F>, f: F)
  {
    f in cs.callerOf && cs.callerOf[f] == f
  }

  /**
   * The frames the loop visits from `call` on, when its depth counter holds
   * `deep`: the caller is pushed first, then the loop stops on a self-caller
   * or once the counter was already past the bound; otherwise it goes on.
   */
  function Walk<F(==)>(cs: CallStack<F>, call: F, deep: nat): seq<F>
    requires deep <= MAX_STACKTRACE_DEEP + 1
    decreases MAX_STACKTRACE_DEEP + 1 - deep
  {
    if call !in cs.callerOf then []
    else
      var next := cs.callerOf[call];
      if SelfCaller(cs, next) || deep > MAX_STACKTRACE_DEEP then [next]
      else [next] + Walk(cs, next, deep + 1)
  }

  /** The frames listed for a walk from `start`: the walk begins with the caller of `start`. */
  function Frames<F(==)>(cs: CallStack<F>, start: F): seq<F>
  {
    Walk(cs, start, 0)
  }

  /** The line written for one frame. */
  function Line<F(==)>(cs: CallStack<F>, f: F): string
  {
    "at " + FunctionName(cs.source(f))
  }

  /** One line per frame, in the order the frames were visited. */
  function Lines<F(==)>(cs: CallStack<F>, frames: seq<F>): seq<string>
  {
    seq(|frames|, i requires 0 <= i < |frames| => Line(cs, frames[i]))
  }

  /** The trace: the lines joined with newlines, "" when there is no caller. */
  function Trace<F(==)>(cs: CallStack<F>, start: F): string
  {
    Join(Lines(cs, Frames(cs, start)), "\n")
  }

  /**
   * The walk described without the loop: `fr` lists successive callers
   * starting from the caller of `start`, at most `cap` of them, none but the
   * last is its own caller, and it ends only where the chain ends, at a
   * self-caller, or at the cap.
   */
  ghost predicate IsWalk<F>(cs: CallStack<F>, start: F, fr: seq<F>, cap: nat)
  {
    |fr| <= cap &&
    (fr == [] <==> start !in cs.callerOf) &&
    (fr != [] ==> fr[0] == cs.callerOf[start]) &&
    (forall i :: 0 <= i < |fr| - 1 ==> fr[i] in cs.callerOf && fr[i + 1] == cs.callerOf[fr[i]]) &&
    (forall i :: 0 <= i < |fr| - 1 ==> !SelfCaller(cs, fr[i])) &&
    (fr != [] ==> fr[|fr| - 1] !in cs.callerOf || SelfCaller(cs, fr[|fr| - 1]) || |fr| == cap)
  }

  lemma {:induction false} WalkSound<F>(cs: CallStack<F>, call: F, deep: nat)
    requires deep <= MAX_STACKTRACE_DEEP + 1
    ensures IsWalk(cs, call, Walk(cs, call, deep), MAX_LINES - deep)
    decreases MAX_STACKTRACE_DEEP + 1 - deep
  {
    if call in cs.callerOf {
      var next := cs.callerOf[call];
      if !(SelfCaller(cs, next) || deep > MAX_STACKTRACE_DEEP) {
        WalkSound(cs, next, deep + 1);
        var rest := Walk(cs, next, deep + 1);
        var fr := [next] + rest;
        assert fr == Walk(cs, call, deep);
        forall i | 0 <= i < |fr| - 1
          ensures fr[i] in cs.callerOf && fr[i + 1] == cs.callerOf[fr[i]] && !SelfCaller(cs, fr[i])
        {
          if i > 0 {
            assert fr[i] == rest[i - 1] && fr[i + 1] == rest[i];
          }
        }
      }
    }
  }

  lemma {:induction false} WalkComplete<F>(cs: CallStack<F>, call: F, deep: nat, fr: seq<F>)
    requires deep <= MAX_STACKTRACE_DEEP + 1
    requires IsWalk(cs, call, fr, MAX_LINES - deep)
    ensures fr == Walk(cs, call, deep)
    decreases MAX_STACKTRACE_DEEP + 1 - deep
  {
    if call in cs.callerOf {
      var next := cs.callerOf[call];
      if !(SelfCaller(cs, next) || deep > MAX_STACKTRACE_DEEP) {
        var rest := fr[1..];
        forall i | 0 <= i < |rest| - 1
          ensures rest[i] in cs.callerOf && rest[i + 1] == cs.callerOf[rest[i]] && !SelfCaller(cs, rest[i])
        {
          assert rest[i] == fr[i + 1] && rest[i + 1] == fr[i + 2];
        }
        if |fr| > 1 {
          assert fr[1] == cs.callerOf[fr[0]];
        }
        WalkComplete(cs, next, deep + 1, rest);
        assert fr == [next] + rest;
      }
    }
  }

  /** The frames listed are exactly the walk described by IsWalk, and nothing else is. */
  lemma FramesCharacterized<F>(cs: CallStack<F>, start: F, fr: seq<F>)
    ensures IsWalk(cs, start, fr, MAX_LINES) <==> fr == Frames(cs, start)
  {
    WalkSound(cs, start, 0);
    if IsWalk(cs, start, fr, MAX_LINES) {
      WalkComplete(cs, start, 0, fr);
    }
  }

  /** Every line begins with "at ", there are at most 22, and the i-th names the i-th caller. */
  lemma TraceShape<F>(cs: CallStack<F>, start: F)
    ensures var lines := Lines(cs, Frames(cs, start));
      |lines| <= MAX_LINES &&
      (lines == [] <==> start !in cs.callerOf) &&
      forall i :: 0 <= i < |lines| ==>
        |lines[i]| >= 3 && lines[i][..3] == "at " && lines[i][3..] == FunctionName(cs.source(Frames(cs, start)[i]))
  {
    WalkSound(cs, start, 0);
  }

  /**
   * A straight chain of frames: frame i < n is called from frame i + 1, and
   * frame n is its own caller when `selfLoop` and has no caller otherwise.
   */
  function Chain(n: nat, selfLoop: bool): map<nat, nat>
  {
    if selfLoop then Links(n)[n := n] else Links(n)
  }

  /** Frame i is called from frame i + 1, for every i < n. */
  function Links(n: nat): (m: map<nat, nat>)
    ensures forall i: nat :: i in m <==> i < n
    ensures forall i :: i in m ==> m[i] == i + 1
  {
    if n == 0 then map[] else Links(n - 1)[n - 1 := n]
  }

  /**
   * From the bottom of a chain of n callers the walk lists n frames, but
   * never more than 22: a deep chain is cut at 22 lines, and a self-caller
   * at the top is listed once.
   */
  lemma ChainWalk(n: nat, selfLoop: bool, source: nat -> string)
    requires n >= 1
    ensures var k := if n < MAX_LINES then n else MAX_LINES;
      Frames(CallStack(Chain(n, selfLoop), source), 0) == seq(k, i => i + 1)
  {
    var cs := CallStack(Chain(n, selfLoop), source);
    var k := if n < MAX_LINES then n else MAX_LINES;
    var fr: seq<nat> := seq(k, i => i + 1);
    forall i | 0 <= i < k - 1
      ensures fr[i] in cs.callerOf && fr[i + 1] == cs.callerOf[fr[i]] && !SelfCaller(cs, fr[i])
    {
      assert fr[i] == i + 1 && i + 1 in Links(n);
    }
    assert fr[0] == cs.callerOf[0] by {
      assert 0 in Links(n);
    }
    assert fr[k - 1] == k;
    if k == n {
      assert k !in Links(n);
    }
    assert IsWalk(cs, 0, fr, MAX_LINES);
    FramesCharacterized(cs, 0, fr);
  }

  /**
   * The lines the loop pushes from `call` on, when its depth counter holds
   * `deep`: Walk with each frame written as its line.
   */
  function WalkLines<F(==)>(cs: CallStack<F>, call: F, deep: nat): seq<string>
    requires deep <= MAX_STACKTRACE_DEEP + 1
    decreases MAX_STACKTRACE_DEEP + 1 - deep
  {
    if call !in cs.callerOf then []
    else
      var next := cs.callerOf[call];
      if SelfCaller(cs, next) || deep > MAX_STACKTRACE_DEEP then [Line(cs, next)]
      else [Line(cs, next)] + WalkLines(cs, next, deep + 1)
  }

  lemma {:induction false} WalkLinesAreLines<F>(cs: CallStack<F>, call: F, deep: nat)
    requires deep <= MAX_STACKTRACE_DEEP + 1
    ensures WalkLines(cs, call, deep) == Lines(cs, Walk(cs, call, deep))
    decreases MAX_STACKTRACE_DEEP + 1 - deep
  {
    if call in cs.callerOf {
      var next := cs.callerOf[call];
      if !(SelfCaller(cs, next) || deep > MAX_STACKTRACE_DEEP) {
        WalkLinesAreLines(cs, next, deep + 1);
        var rest := Walk(cs, next, deep + 1);
        assert Lines(cs, [next] + rest) == [Line(cs, next)] + Lines(cs, rest);
      }
    }
  }

  /**
   * The synthetic stack trace of the frames above `start`, built with the
   * source's loop.
   */
  method Stacktrace<F(==)>(cs: CallStack<F>, start: F) returns (trace: string)
    ensures trace == Trace(cs, start)
  {
    var stack: seq<string> := [];
    var deep: nat := 0;
    var call := start;
    while call in cs.callerOf
      invariant deep <= MAX_STACKTRACE_DEEP + 1
      invariant stack + WalkLines(cs, call, deep) == WalkLines(cs, start, 0)
      decreases MAX_STACKTRACE_DEEP + 1 - deep
    {
      ghost var rest := WalkLines(cs, call, deep);
      call := cs.callerOf[call];
      stack := stack + [Line(cs, call)];
      if SelfCaller(cs, call) {
        assert rest == [Line(cs, call)];
        assert stack == WalkLines(cs, start, 0);
        break;
      }
      var before := deep;
      deep := deep + 1;
      if before > MAX_STACKTRACE_DEEP {
        assert rest == [Line(cs, call)];
        assert stack == WalkLines(cs, start, 0);
        break;
      }
    }
    assert stack == WalkLines(cs, start, 0);
    WalkLinesAreLines(cs, start, 0);
    trace := Join(stack, "\n");
  }
}
