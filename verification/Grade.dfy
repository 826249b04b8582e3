/** Grading tool calls: an ordered subsequence of names, and a count within bounds.

    Model of gradeToolSequence, gradeToolCall and bounds of internal/grade/grade.go. */
module Grading {
  import opened Prelude

  /** Whether a pattern compiles, and whether it matches a subject: any predicates. */
  datatype Patterns = Patterns(compiles: string -> bool, matches: (string, string) -> bool)

  datatype Verdict = Skipped | Invalid(at: nat) | Graded(pass: bool, matched: nat)

  datatype Call = Call(name: string, input: string, result: Option<string>)

  // ----- ordered subsequences -----

  /** The calls at these positions, in increasing order, match the patterns one by one. */
  predicate Embeds(p: Patterns, patterns: seq<string>, calls: seq<Call>, at: seq<nat>) {
    && |at| == |patterns|
    && (forall i | 0 <= i < |at| :: at[i] < |calls| && p.matches(patterns[i], calls[at[i]].name))
    && (forall i, j | 0 <= i < j < |at| :: at[i] < at[j])
  }

  ghost predicate Embeddable(p: Patterns, patterns: seq<string>, calls: seq<Call>) {
    exists at :: Embeds(p, patterns, calls, at)
  }

  /** What one pass that always takes the first match reaches. */
  function Greedy(p: Patterns, patterns: seq<string>, calls: seq<Call>): (n: nat)
    ensures n <= |patterns|
  {
    if calls == [] then 0
    else
      var n := Greedy(p, patterns, calls[..|calls| - 1]);
      if n < |patterns| && p.matches(patterns[n], calls[|calls| - 1].name) then n + 1 else n
  }

  lemma {:induction false} GreedyEmbeds(p: Patterns, patterns: seq<string>, calls: seq<Call>) returns (at: seq<nat>)
    ensures Embeds(p, patterns[..Greedy(p, patterns, calls)], calls, at)
  {
    at := [];
    if calls != [] {
      var front := calls[..|calls| - 1];
      at := GreedyEmbeds(p, patterns, front);
      if Greedy(p, patterns, calls) > |at| {
        at := at + [|calls| - 1];
      }
    }
  }

  /** No choice of calls gets further than the greedy pass. */
  lemma {:induction false} GreedyIsBest(p: Patterns, patterns: seq<string>, calls: seq<Call>, k: nat, at: seq<nat>)
    requires k <= |patterns| && Embeds(p, patterns[..k], calls, at)
    ensures k <= Greedy(p, patterns, calls)
  {
    if k > 0 {
      assert at[k - 1] < |calls|;
      var front, last := calls[..|calls| - 1], at[k - 1];
      assert forall i | 0 <= i < k - 1 :: at[i] < last;
      if last == |calls| - 1 {
        assert patterns[..k][..k - 1] == patterns[..k - 1];
        GreedyIsBest(p, patterns, front, k - 1, at[..k - 1]);
        assert p.matches(patterns[..k][k - 1], calls[last].name);
      } else {
        assert forall i | 0 <= i < k :: at[i] < |front| && front[at[i]] == calls[at[i]];
        GreedyIsBest(p, patterns, front, k, at);
      }
    }
  }

  /** The greedy pass is complete: a prefix of the patterns is matched by some increasing choice of calls exactly when
      the pass gets that far. */
  lemma GreedyIsComplete(p: Patterns, patterns: seq<string>, calls: seq<Call>, k: nat)
    requires k <= |patterns|
    ensures Embeddable(p, patterns[..k], calls) <==> k <= Greedy(p, patterns, calls)
  {
    if Embeddable(p, patterns[..k], calls) {
      var at :| Embeds(p, patterns[..k], calls, at);
      GreedyIsBest(p, patterns, calls, k, at);
    }
    if k <= Greedy(p, patterns, calls) {
      var at := GreedyEmbeds(p, patterns, calls);
      assert Embeds(p, patterns[..k], calls, at[..k]);
    }
  }

  /** Passes when the patterns match an ordered subsequence of the calls' names; otherwise reports the longest prefix
      of the patterns that some choice of calls matches. None skips: the harness does not report calls. */
  method GradeToolSequence(p: Patterns, patterns: seq<string>, calls: Option<seq<Call>>) returns (v: Verdict)
    ensures v.Skipped? <==> calls.None?
    ensures v.Invalid? <==> calls.Some? && exists i :: 0 <= i < |patterns| && !p.compiles(patterns[i])
    ensures v.Invalid? ==> v.at < |patterns| && !p.compiles(patterns[v.at])
    ensures v.Invalid? ==> forall i | 0 <= i < v.at :: i < |patterns| && p.compiles(patterns[i])
    ensures v.Graded? ==> v.matched <= |patterns| && (v.pass <==> Embeddable(p, patterns, calls.value))
    ensures v.Graded? ==> forall k | 0 <= k <= |patterns| ::
                            Embeddable(p, patterns[..k], calls.value) <==> k <= v.matched
  {
    if calls.None? {
      return Skipped;
    }
    var i := 0;
    while i < |patterns|
      invariant 0 <= i <= |patterns| && forall k | 0 <= k < i :: p.compiles(patterns[k])
    {
      if !p.compiles(patterns[i]) {
        return Invalid(i);
      }
      i := i + 1;
    }
    var next, j := 0, 0;
    while j < |calls.value|
      invariant 0 <= j <= |calls.value| && next <= |patterns|
      invariant next == Greedy(p, patterns, calls.value[..j])
    {
      assert calls.value[..j + 1][..j] == calls.value[..j];
      if next < |patterns| && p.matches(patterns[next], calls.value[j].name) {
        next := next + 1;
      }
      j := j + 1;
    }
    assert calls.value[..j] == calls.value;
    forall k | 0 <= k <= |patterns| ensures Embeddable(p, patterns[..k], calls.value) <==> k <= next {
      GreedyIsComplete(p, patterns, calls.value, k);
    }
    assert patterns[..|patterns|] == patterns;
    v := Graded(next == |patterns|, next);
  }

  // ----- counts within bounds -----

  datatype Assertion = Assertion(tool: string, pattern: string, result: string, min: Option<int>, max: Option<int>)

  predicate CallMatches(p: Patterns, a: Assertion, c: Call) {
    && p.matches(a.tool, c.name) && (a.pattern != "" ==> p.matches(a.pattern, c.input))
    && (a.result != "" ==> c.result.Some? && p.matches(a.result, c.result.value))
  }

  /** The match-count bounds: at least one match unless the author forbids or bounds them; -1 is no maximum. */
  method Bounds(a: Assertion) returns (lo: int, hi: int)
    ensures lo == if a.min.Some? then a.min.value else if a.max == Some(0) then 0 else 1
    ensures hi == if a.max.Some? then a.max.value else -1
  {
    lo, hi := 1, -1;
    if a.max.Some? {
      hi := a.max.value;
      if hi == 0 {
        lo := 0;
      }
    }
    if a.min.Some? {
      lo := a.min.value;
    }
  }

  /** Passes when the number of calls whose name, arguments and result match is at least the minimum, which is 1 when
      it is not set and 0 when the maximum is 0, and at most the maximum, when that is set and not negative. Reports
      the first pattern that does not compile: 0 the tool's, 1 the arguments', 2 the result's. */
  method GradeToolCall(p: Patterns, a: Assertion, calls: Option<seq<Call>>) returns (v: Verdict)
    ensures v.Skipped? <==> calls.None?
    ensures v.Invalid? && v.at == 0 <==> calls.Some? && !p.compiles(a.tool)
    ensures v.Invalid? && v.at == 1 <==> calls.Some? && p.compiles(a.tool) && a.pattern != "" && !p.compiles(a.pattern)
    ensures v.Invalid? && v.at == 2 <==>
              && calls.Some? && p.compiles(a.tool) && (a.pattern != "" ==> p.compiles(a.pattern))
              && a.result != "" && !p.compiles(a.result)
    ensures v.Invalid? ==> v.at <= 2
    ensures v.Graded? ==> v.matched == |Filter((c: Call) => CallMatches(p, a, c), calls.value)|
    ensures v.Graded? ==>
              (v.pass <==>
                 && (a.min.Some? ==> v.matched >= a.min.value)
                 && (a.min.None? && a.max != Some(0) ==> v.matched >= 1)
                 && (a.max.Some? && a.max.value >= 0 ==> v.matched <= a.max.value))
  {
    if calls.None? {
      return Skipped;
    }
    if !p.compiles(a.tool) {
      return Invalid(0);
    }
    if a.pattern != "" && !p.compiles(a.pattern) {
      return Invalid(1);
    }
    if a.result != "" && !p.compiles(a.result) {
      return Invalid(2);
    }
    ghost var keep := (c: Call) => CallMatches(p, a, c);
    var matched: seq<Call> := [];
    var i := 0;
    while i < |calls.value|
      invariant 0 <= i <= |calls.value| && matched == Filter(keep, calls.value[..i])
    {
      var tc := calls.value[i];
      TakeOneMore([], calls.value, i);
      FilterConcat(keep, calls.value[..i], [tc]);
      if p.matches(a.tool, tc.name) && (a.pattern == "" || p.matches(a.pattern, tc.input)) {
        if a.result == "" || (tc.result.Some? && p.matches(a.result, tc.result.value)) {
          matched := matched + [tc];
        }
      }
      i := i + 1;
    }
    assert calls.value[..i] == calls.value;
    var lo, hi := Bounds(a);
    v := Graded(|matched| >= lo && (hi < 0 || |matched| <= hi), |matched|);
  }

  /** The calls counted are those at the positions where the name matches, the arguments match when there is a pattern
      for them, and there is a result that matches when there is a pattern for it. */
  lemma {:induction false} MatchedAre(p: Patterns, a: Assertion, calls: seq<Call>) returns (at: seq<nat>)
    ensures |at| == |Filter((c: Call) => CallMatches(p, a, c), calls)|
    ensures forall i, j | 0 <= i < j < |at| :: at[i] < at[j]
    ensures forall k: nat :: k in at <==>
              && k < |calls| && p.matches(a.tool, calls[k].name)
              && (a.pattern == "" || p.matches(a.pattern, calls[k].input))
              && (a.result == "" || (calls[k].result.Some? && p.matches(a.result, calls[k].result.value)))
  {
    at := [];
    if calls != [] {
      var keep := (c: Call) => CallMatches(p, a, c);
      var front, last := calls[..|calls| - 1], calls[|calls| - 1];
      assert calls == front + [last];
      at := MatchedAre(p, a, front);
      FilterConcat(keep, front, [last]);
      if keep(last) {
        assert forall i | 0 <= i < |at| :: at[i] in at;
        at := at + [|front|];
      }
    }
  }
}
