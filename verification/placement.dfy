/**
 * The choice of the two split points of a query and the three noise spans
 * they determine. `t` is the total length, `ls` and `lr` the numbers of
 * subject and relation tokens.
 */
module Placement {
  import opened Wrappers

  /**
   * An inclusive integer draw, as done by the standard library's `randint`:
   * `draw` stands for the random source, so every value of the range is the
   * outcome of some draw. An empty range is an error, not a value.
   */
  function Randint(lo: int, hi: int, draw: nat): (r: Result<int>)
    ensures r.Success? <==> lo <= hi
    ensures r.Success? ==> lo <= r.value <= hi
    ensures r.Failure? ==> r.error == EmptyRange
  {
    if lo > hi then Failure(EmptyRange) else Success(lo + draw % (hi - lo + 1))
  }

  /** Every value of a non-empty range is drawn by some draw, namely its offset from `lo`. */
  lemma RandintReaches(lo: int, hi: int, v: int)
    requires lo <= v <= hi
    ensures Randint(lo, hi, v - lo) == Success(v)
  {
  }

  /** The start of the subject and the start of the relation. */
  datatype Plan = Plan(i: int, j: int)

  /** The lengths of the noise before the subject, between the two groups, and before the link. */
  datatype Spans = Spans(n1: int, n2: int, n3: int)

  /** The largest start of the subject that still leaves room for everything after it. */
  function MaxStart(t: int, ls: nat, lr: nat): int {
    t - ls - lr - 1
  }

  /** The split points both draws can produce: `i` in [0, MaxStart], `j` in [i + ls, t - lr - 1]. */
  predicate Legal(t: int, ls: nat, lr: nat, p: Plan) {
    && 0 <= p.i <= MaxStart(t, ls, lr)
    && p.i + ls <= p.j <= t - lr - 1
  }

  /** The noise lengths the split points determine. */
  function SpansOf(t: int, ls: nat, lr: nat, p: Plan): Spans {
    Spans(p.i, p.j - p.i - ls, t - p.j - lr - 1)
  }

  /** Spans that fit: none negative, and together with the content they fill exactly `t`. */
  predicate Fits(t: int, ls: nat, lr: nat, sp: Spans) {
    && sp.n1 >= 0 && sp.n2 >= 0 && sp.n3 >= 0
    && sp.n1 + ls + sp.n2 + lr + sp.n3 + 1 == t
  }

  /** The split points that produce given spans: the subject after n1, the relation after n2 more. */
  function PlanOf(ls: nat, sp: Spans): Plan {
    Plan(sp.n1, sp.n1 + ls + sp.n2)
  }

  /** Split points are legal exactly when their spans fit. */
  lemma LegalIffFits(t: int, ls: nat, lr: nat, p: Plan)
    ensures Legal(t, ls, lr, p) <==> Fits(t, ls, lr, SpansOf(t, ls, lr, p))
  {
  }

  /** Spans and split points determine each other. */
  lemma SpansRoundTrip(t: int, ls: nat, lr: nat, p: Plan, sp: Spans)
    ensures PlanOf(ls, SpansOf(t, ls, lr, p)) == p
    ensures Fits(t, ls, lr, sp) ==> SpansOf(t, ls, lr, PlanOf(ls, sp)) == sp
  {
  }

  /** Once the length guard passes, every first draw leaves a non-empty range for the second. */
  lemma SecondRangeNonEmpty(t: int, ls: nat, lr: nat, i: int)
    requires t >= ls + lr + 1
    requires 0 <= i <= MaxStart(t, ls, lr)
    ensures i + ls <= t - lr - 1
  {
  }

  /**
   * The length guard followed by the two draws. It fails exactly when `t` is
   * below the floor, and then for that reason; neither draw ever sees an empty
   * range, and the split points drawn are legal.
   */
  function ChoosePlan(t: int, ls: nat, lr: nat, first: nat, second: nat): (r: Result<Plan>)
    ensures r.Success? <==> t >= ls + lr + 1
    ensures r.Failure? ==> r.error == TooSmallForTokens
    ensures r.Success? ==> Legal(t, ls, lr, r.value)
  {
    if t < ls + lr + 1 then
      Failure(TooSmallForTokens)
    else
      // Both draws are taken as values: the verifier checks neither can fail here.
      var i := Randint(0, MaxStart(t, ls, lr), first).value;
      var j := Randint(i + ls, t - lr - 1, second).value;
      Success(Plan(i, j))
  }

  /** Every legal pair of split points is chosen by some pair of draws. */
  lemma EveryLegalPlanIsChosen(t: int, ls: nat, lr: nat, p: Plan)
    requires Legal(t, ls, lr, p)
    ensures ChoosePlan(t, ls, lr, p.i, p.j - p.i - ls) == Success(p)
  {
    RandintReaches(0, MaxStart(t, ls, lr), p.i);
    RandintReaches(p.i + ls, t - lr - 1, p.j);
  }
}
