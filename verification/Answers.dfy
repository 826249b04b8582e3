/** Canned answers: which scripted response answers which human-in-the-loop request. */
module Answers {
  import opened Prelude

  /** A scripted answer. A pattern of "" is absent; `content` is the result as message text. It answers interrupts
      when `interrupt` is set, and frontend tool calls otherwise. */
  datatype Response = Response(
    tool: string, args: string, interrupt: string, message: string,
    content: string, error: string, status: string, payload: string, repeatable: bool)

  /** Whether a pattern matches a subject: any predicate. */
  type Matcher = (string, string) -> bool

  datatype Request =
    | ToolAsk(known: bool, name: string, args: string)
    | InterruptAsk(reason: string, message: string, name: string)

  predicate Fits(matches: Matcher, r: Response, q: Request) {
    match q
    case ToolAsk(known, name, args) =>
      && known && r.interrupt == "" && r.tool != "" && matches(r.tool, name)
      && (r.args == "" || matches(r.args, args))
    case InterruptAsk(reason, message, name) =>
      && r.interrupt != "" && matches(r.interrupt, reason)
      && (r.message == "" || matches(r.message, message)) && (r.tool == "" || matches(r.tool, name))
  }

  /** A response that may still be given: not used before, or repeatable. */
  predicate Available(r: Response, used: bool) { !used || r.repeatable }

  /** k is the first available response that fits. */
  predicate IsFirstFit(matches: Matcher, rs: seq<Response>, used: seq<bool>, q: Request, k: nat)
    requires |used| == |rs|
  {
    && k < |rs| && Available(rs[k], used[k]) && Fits(matches, rs[k], q)
    && forall i | 0 <= i < k :: !(Available(rs[i], used[i]) && Fits(matches, rs[i], q))
  }

  /** The pick for one request is the first fit, or none when nothing available fits. */
  predicate IsPick(matches: Matcher, rs: seq<Response>, used: seq<bool>, q: Request, pick: Option<nat>)
    requires |used| == |rs|
  {
    match pick
    case Some(k) => IsFirstFit(matches, rs, used, q, k)
    case None => forall i | 0 <= i < |rs| :: !(Available(rs[i], used[i]) && Fits(matches, rs[i], q))
  }

  function UsedAfter(used: seq<bool>, pick: Option<nat>): (r: seq<bool>)
    ensures |r| == |used|
  {
    if pick.Some? && pick.value < |used| then used[pick.value := true] else used
  }

  /** Which of n responses these picks have used. */
  function UsedBy(n: nat, picks: seq<Option<nat>>): (r: seq<bool>)
    ensures |r| == n
  {
    if picks == [] then seq(n, _ => false) else UsedAfter(UsedBy(n, picks[..|picks| - 1]), picks[|picks| - 1])
  }

  /** Every request was matched to the first response that fits among those the earlier picks left available, and to
      none only when no such response fits. */
  ghost predicate PicksAre(matches: Matcher, rs: seq<Response>, qs: seq<Request>, picks: seq<Option<nat>>) {
    && |picks| == |qs|
    && forall i | 0 <= i < |picks| :: IsPick(matches, rs, UsedBy(|rs|, picks[..i]), qs[i], picks[i])
  }

  lemma PicksGrow(matches: Matcher, rs: seq<Response>, qs: seq<Request>, picks: seq<Option<nat>>, q: Request,
                  pick: Option<nat>)
    requires PicksAre(matches, rs, qs, picks) && IsPick(matches, rs, UsedBy(|rs|, picks), q, pick)
    ensures PicksAre(matches, rs, qs + [q], picks + [pick])
    ensures UsedBy(|rs|, picks + [pick]) == UsedAfter(UsedBy(|rs|, picks), pick)
  {
    hide IsPick, UsedAfter;
    var all := picks + [pick];
    assert all[..|picks|] == picks;
    forall i | 0 <= i < |all| ensures IsPick(matches, rs, UsedBy(|rs|, all[..i]), (qs + [q])[i], all[i]) {
      assert all[..i] == picks[..i];
    }
  }

  lemma {:induction false} UsedMeans(n: nat, picks: seq<Option<nat>>, k: nat)
    requires k < n
    ensures UsedBy(n, picks)[k] <==> Some(k) in picks
  {
    if picks != [] {
      var front, last := picks[..|picks| - 1], picks[|picks| - 1];
      assert picks == front + [last];
      UsedMeans(n, front, k);
    }
  }

  /** So no response that is not repeatable ever answers two requests, and every response answers only what it fits. */
  lemma EachGivenOnce(matches: Matcher, rs: seq<Response>, qs: seq<Request>, picks: seq<Option<nat>>, i: nat, j: nat)
    requires PicksAre(matches, rs, qs, picks) && i < j < |picks| && picks[i].Some? && picks[i] == picks[j]
    ensures picks[i].value < |rs| && rs[picks[i].value].repeatable
    ensures Fits(matches, rs[picks[i].value], qs[i]) && Fits(matches, rs[picks[i].value], qs[j])
  {
    hide Fits;
    var k := picks[j].value;
    assert IsPick(matches, rs, UsedBy(|rs|, picks[..i]), qs[i], picks[i]);
    assert IsPick(matches, rs, UsedBy(|rs|, picks[..j]), qs[j], picks[j]);
    assert picks[..j][i] == Some(k);
    UsedMeans(|rs|, picks[..j], k);
  }

  /** A request without a match: every response that fits it was given before and may not be repeated. */
  lemma UnmatchedMeansExhausted(matches: Matcher, rs: seq<Response>, qs: seq<Request>, picks: seq<Option<nat>>,
                                i: nat, k: nat)
    requires PicksAre(matches, rs, qs, picks) && i < |picks| && picks[i].None?
    requires k < |rs| && Fits(matches, rs[k], qs[i])
    ensures !rs[k].repeatable && Some(k) in picks[..i]
  {
    hide Fits;
    assert IsPick(matches, rs, UsedBy(|rs|, picks[..i]), qs[i], picks[i]);
    UsedMeans(|rs|, picks[..i], k);
  }
}
