/** Time per task group (src/breakdowns.ts): seven group fields plus `total`. */
module Breakdowns {

  /** The seven task group ids of the trace library, in declaration order. */
  const GroupIds: seq<string> := ["parseHTML", "styleLayout", "paintCompositeRender",
    "scriptParseCompile", "scriptEvaluation", "garbageCollection", "other"]

  datatype Breakdown = Breakdown(
    parseHTML: int,
    styleLayout: int,
    paintCompositeRender: int,
    scriptParseCompile: int,
    scriptEvaluation: int,
    garbageCollection: int,
    other: int,
    total: int)
  {
    function GroupSum(): int {
      parseHTML + styleLayout + paintCompositeRender + scriptParseCompile
        + scriptEvaluation + garbageCollection + other
    }

    /** `total` is the sum of the seven group fields. */
    predicate Consistent() {
      total == GroupSum()
    }

    predicate NonNegative() {
      parseHTML >= 0 && styleLayout >= 0 && paintCompositeRender >= 0 && scriptParseCompile >= 0
        && scriptEvaluation >= 0 && garbageCollection >= 0 && other >= 0 && total >= 0
    }
  }

  /** createBreakdown: every field zero. */
  function ZeroBreakdown(): Breakdown {
    Breakdown(0, 0, 0, 0, 0, 0, 0, 0)
  }

  /** `key in breakdown`: one of the seven group ids, or "total". */
  predicate IsKey(key: string) {
    key in GroupIds || key == "total"
  }

  /** `breakdown[key]`. */
  function Get(b: Breakdown, key: string): int
    requires IsKey(key)
  {
    match key
    case "parseHTML" => b.parseHTML
    case "styleLayout" => b.styleLayout
    case "paintCompositeRender" => b.paintCompositeRender
    case "scriptParseCompile" => b.scriptParseCompile
    case "scriptEvaluation" => b.scriptEvaluation
    case "garbageCollection" => b.garbageCollection
    case "other" => b.other
    case _ => b.total
  }

  /** `breakdown[key] += amount`. */
  function AddAt(b: Breakdown, key: string, amount: int): (r: Breakdown)
    requires IsKey(key)
    ensures Get(r, key) == Get(b, key) + amount
    ensures forall k | IsKey(k) && k != key :: Get(r, k) == Get(b, k)
  {
    match key
    case "parseHTML" => b.(parseHTML := b.parseHTML + amount)
    case "styleLayout" => b.(styleLayout := b.styleLayout + amount)
    case "paintCompositeRender" => b.(paintCompositeRender := b.paintCompositeRender + amount)
    case "scriptParseCompile" => b.(scriptParseCompile := b.scriptParseCompile + amount)
    case "scriptEvaluation" => b.(scriptEvaluation := b.scriptEvaluation + amount)
    case "garbageCollection" => b.(garbageCollection := b.garbageCollection + amount)
    case "other" => b.(other := b.other + amount)
    case _ => b.(total := b.total + amount)
  }

  /** mergeBreakdownInto as a value: every field of `existing` becomes
      `op(toMerge.field, existing.field)`. */
  function Merge(toMerge: Breakdown, existing: Breakdown, op: (int, int) -> int): Breakdown {
    Breakdown(
      op(toMerge.parseHTML, existing.parseHTML),
      op(toMerge.styleLayout, existing.styleLayout),
      op(toMerge.paintCompositeRender, existing.paintCompositeRender),
      op(toMerge.scriptParseCompile, existing.scriptParseCompile),
      op(toMerge.scriptEvaluation, existing.scriptEvaluation),
      op(toMerge.garbageCollection, existing.garbageCollection),
      op(toMerge.other, existing.other),
      op(toMerge.total, existing.total))
  }

  /** Fieldwise sum. */
  function Add(a: Breakdown, b: Breakdown): Breakdown {
    Breakdown(
      a.parseHTML + b.parseHTML,
      a.styleLayout + b.styleLayout,
      a.paintCompositeRender + b.paintCompositeRender,
      a.scriptParseCompile + b.scriptParseCompile,
      a.scriptEvaluation + b.scriptEvaluation,
      a.garbageCollection + b.garbageCollection,
      a.other + b.other,
      a.total + b.total)
  }

  /** sumOfBreakdowns as a value: the inputs merged one after another into a zero breakdown. */
  function Sum(bs: seq<Breakdown>): Breakdown {
    if bs == [] then ZeroBreakdown() else Add(bs[|bs| - 1], Sum(bs[..|bs| - 1]))
  }

  /** maxOfBreakdowns as a value: an input replaces the accumulator when its total is
      strictly greater than the accumulator's. */
  function MaxOf(bs: seq<Breakdown>): Breakdown {
    if bs == [] then ZeroBreakdown()
    else
      var acc := MaxOf(bs[..|bs| - 1]);
      if bs[|bs| - 1].total > acc.total then bs[|bs| - 1] else acc
  }

  /** The sum of one field over a list of breakdowns. */
  function FieldSum(bs: seq<Breakdown>, key: string): int
    requires IsKey(key)
  {
    if bs == [] then 0 else FieldSum(bs[..|bs| - 1], key) + Get(bs[|bs| - 1], key)
  }

  /** The breakdown record that mergeBreakdownInto and the sum/max loops write in place. */
  class MutableBreakdown {
    var parseHTML: int
    var styleLayout: int
    var paintCompositeRender: int
    var scriptParseCompile: int
    var scriptEvaluation: int
    var garbageCollection: int
    var other: int
    var total: int

    function Value(): Breakdown
      reads this
    {
      Breakdown(parseHTML, styleLayout, paintCompositeRender, scriptParseCompile,
        scriptEvaluation, garbageCollection, other, total)
    }

    /** createBreakdown */
    constructor ()
      ensures Value() == ZeroBreakdown()
    {
      parseHTML, styleLayout, paintCompositeRender, scriptParseCompile := 0, 0, 0, 0;
      scriptEvaluation, garbageCollection, other, total := 0, 0, 0, 0;
    }
  }

  /** mergeBreakdownInto: overwrites the fields of `existing` one by one, `total` last;
      `toMerge` is a value and cannot change. */
  method MergeBreakdownInto(toMerge: Breakdown, existing: MutableBreakdown, op: (int, int) -> int)
    modifies existing
    ensures existing.Value() == Merge(toMerge, old(existing.Value()), op)
  {
    existing.parseHTML := op(toMerge.parseHTML, existing.parseHTML);
    existing.styleLayout := op(toMerge.styleLayout, existing.styleLayout);
    existing.paintCompositeRender := op(toMerge.paintCompositeRender, existing.paintCompositeRender);
    existing.scriptParseCompile := op(toMerge.scriptParseCompile, existing.scriptParseCompile);
    existing.scriptEvaluation := op(toMerge.scriptEvaluation, existing.scriptEvaluation);
    existing.garbageCollection := op(toMerge.garbageCollection, existing.garbageCollection);
    existing.other := op(toMerge.other, existing.other);
    existing.total := op(toMerge.total, existing.total);
  }

  /** sumOfBreakdowns: merges every input into a fresh zero breakdown with `+`. */
  method SumOfBreakdowns(breakdowns: seq<Breakdown>) returns (r: Breakdown)
    ensures r == Sum(breakdowns)
    ensures breakdowns == [] ==> r == ZeroBreakdown()
    ensures forall key | IsKey(key) :: Get(r, key) == FieldSum(breakdowns, key)
  {
    var summed := new MutableBreakdown();
    for i := 0 to |breakdowns|
      invariant summed.Value() == Sum(breakdowns[..i])
    {
      MergeBreakdownInto(breakdowns[i], summed, (toMerge, existing) => toMerge + existing);
      assert breakdowns[..i + 1][..i] == breakdowns[..i];
    }
    assert breakdowns[..|breakdowns|] == breakdowns;
    r := summed.Value();
    forall key | IsKey(key) ensures Get(r, key) == FieldSum(breakdowns, key) {
      SumFieldwise(breakdowns, key);
    }
  }

  /** maxOfBreakdowns. The operation passed to mergeBreakdownInto compares the candidate's
      total with the accumulator's `total`; because `total` is the last field written, every
      field sees the accumulator's total from before the call, captured here as `current`. */
  method MaxOfBreakdowns(breakdowns: seq<Breakdown>) returns (r: Breakdown)
    ensures r == MaxOf(breakdowns)
  {
    var maxBreakdown := new MutableBreakdown();
    for i := 0 to |breakdowns|
      invariant maxBreakdown.Value() == MaxOf(breakdowns[..i])
    {
      var breakdown := breakdowns[i];
      var current := maxBreakdown.total;
      MergeBreakdownInto(breakdown, maxBreakdown,
        (toMerge, existing) => if breakdown.total > current then toMerge else existing);
      assert breakdowns[..i + 1][..i] == breakdowns[..i];
    }
    assert breakdowns[..|breakdowns|] == breakdowns;
    r := maxBreakdown.Value();
  }

  /** Each field of a sum is the sum of that field over the inputs. */
  lemma {:induction false} SumFieldwise(bs: seq<Breakdown>, key: string)
    requires IsKey(key)
    ensures Get(Sum(bs), key) == FieldSum(bs, key)
  {
    if bs != [] {
      SumFieldwise(bs[..|bs| - 1], key);
    }
  }

  /** The sum of consistent breakdowns is consistent. */
  lemma {:induction false} SumConsistent(bs: seq<Breakdown>)
    requires forall i :: 0 <= i < |bs| ==> bs[i].Consistent()
    ensures Sum(bs).Consistent()
  {
    if bs != [] {
      SumConsistent(bs[..|bs| - 1]);
    }
  }

  /** The sum of non-negative breakdowns is non-negative. */
  lemma {:induction false} SumNonNegative(bs: seq<Breakdown>)
    requires forall i :: 0 <= i < |bs| ==> bs[i].NonNegative()
    ensures Sum(bs).NonNegative()
  {
    if bs != [] {
      SumNonNegative(bs[..|bs| - 1]);
    }
  }

  /** Summing a concatenation adds the two partial sums. */
  lemma {:induction false} SumAppend(a: seq<Breakdown>, b: seq<Breakdown>)
    ensures Sum(a + b) == Add(Sum(a), Sum(b))
    decreases |b|
  {
    if b == [] {
      assert a + b == a;
    } else {
      var prefix := b[..|b| - 1];
      var x := b[|b| - 1];
      assert (a + b)[..|a + b| - 1] == a + prefix && (a + b)[|a + b| - 1] == x;
      assert Sum(a + b) == Add(x, Sum(a + prefix));
      SumAppend(a, prefix);
      AddSwap(x, Sum(a), Sum(prefix));
    }
  }

  lemma {:induction false} AddSwap(x: Breakdown, p: Breakdown, q: Breakdown)
    ensures Add(x, Add(p, q)) == Add(p, Add(x, q))
  {
  }

  /** Two-argument sums (the form the summarizer uses). */
  lemma {:induction false} SumPair(a: Breakdown, b: Breakdown)
    ensures Sum([a, b]) == Add(a, b)
  {
    assert [a, b][..1] == [a];
    assert [a][..0] == [];
    assert Sum([a]) == Add(a, ZeroBreakdown());
  }

  /** maxOfBreakdowns never returns a total below zero or below any input's total, and it
      returns either the zero breakdown or the FIRST input with the greatest (positive) total.
      Together: zero when no total is positive, otherwise that first maximum. */
  lemma {:induction false} MaxOfIsFirstMaximum(bs: seq<Breakdown>)
    ensures MaxOf(bs).total >= 0
    ensures forall j :: 0 <= j < |bs| ==> bs[j].total <= MaxOf(bs).total
    ensures MaxOf(bs) == ZeroBreakdown()
         || exists k :: 0 <= k < |bs| && MaxOf(bs) == bs[k] && bs[k].total > 0
                      && forall j :: 0 <= j < k ==> bs[j].total < bs[k].total
  {
    if bs != [] {
      var init := bs[..|bs| - 1];
      var last := bs[|bs| - 1];
      MaxOfIsFirstMaximum(init);
      var acc := MaxOf(init);
      if last.total > acc.total {
        assert MaxOf(bs) == last;
        assert forall j :: 0 <= j < |bs| - 1 ==> bs[j].total <= acc.total by {
          forall j | 0 <= j < |bs| - 1 ensures bs[j].total <= acc.total {
            assert bs[j] == init[j];
          }
        }
      } else {
        assert MaxOf(bs) == acc;
        if acc != ZeroBreakdown() {
          var k :| 0 <= k < |init| && acc == init[k] && init[k].total > 0
                   && forall j :: 0 <= j < k ==> init[j].total < init[k].total;
          assert bs[k] == init[k];
          assert forall j :: 0 <= j < k ==> bs[j].total < bs[k].total by {
            forall j | 0 <= j < k ensures bs[j].total < bs[k].total {
              assert bs[j] == init[j];
            }
          }
        }
        assert forall j :: 0 <= j < |bs| - 1 ==> bs[j].total <= acc.total by {
          forall j | 0 <= j < |bs| - 1 ensures bs[j].total <= acc.total {
            assert bs[j] == init[j];
          }
        }
      }
    }
  }
}
