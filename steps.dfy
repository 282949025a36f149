/**
 * The wizard's step list and its three ways of moving: the "Anterior" button
 * (`Math.max(0, s - 1)`), the "Siguiente" button (`Math.min(steps.length - 1, s + 1)`)
 * and a click on the sidebar entry at some index of the list.
 */
module Steps {
  import opened Numbers

  /** The `id`s of the five steps, in order. */
  const StepIds: seq<string> := ["contexto", "territorio", "audiencia", "objetivo", "revision"]

  /** `steps.length - 1`: the index of the final "Finalizar" step. */
  const Last: nat := |StepIds| - 1

  /** The "Anterior" button's updater. */
  function Previous(s: nat): (r: nat)
    requires s <= Last
    ensures r <= Last
    ensures s == 0 ==> r == 0
    ensures s > 0 ==> r == s - 1
  {
    Max(0, s - 1)
  }

  /** The "Siguiente" button's updater. */
  function Next(s: nat): (r: nat)
    requires s <= Last
    ensures r <= Last
    ensures s == Last ==> r == Last
    ensures s < Last ==> r == s + 1
  {
    Min(Last, s + 1)
  }

  /** Back undoes forward everywhere but on the last step, and forward undoes back everywhere but on the first. */
  lemma PreviousNextInverse(s: nat)
    requires s <= Last
    ensures s < Last ==> Previous(Next(s)) == s
    ensures s > 0 ==> Next(Previous(s)) == s
  {
  }

  /** One user action on the navigation. */
  datatype Nav = Back | Forward | Jump(index: nat)

  /** A jump can only come from a sidebar entry, so its index addresses a step. */
  predicate FromUi(e: Nav) {
    e.Jump? ==> e.index < |StepIds|
  }

  function Apply(s: nat, e: Nav): (r: nat)
    requires s <= Last && FromUi(e)
    ensures r <= Last
  {
    match e
    case Back => Previous(s)
    case Forward => Next(s)
    case Jump(i) => i
  }

  /**
   * The step after a sequence of actions, processed in order. However the buttons and
   * the sidebar are used, the step stays in [0, Last], and it ends where the last
   * sidebar click put it when no button is pressed after that click.
   */
  function Run(s: nat, es: seq<Nav>): (r: nat)
    requires s <= Last
    requires forall k :: 0 <= k < |es| ==> FromUi(es[k])
    ensures r <= Last
    ensures es != [] && es[|es| - 1].Jump? ==> r == es[|es| - 1].index
    decreases |es|
  {
    if es == [] then s else Run(Apply(s, es[0]), es[1..])
  }

  /** Pressing "Siguiente" k times reaches step s + k, or stops at the last step. */
  lemma {:induction false} ForwardRepeated(s: nat, k: nat)
    requires s <= Last
    ensures Run(s, seq(k, _ => Forward)) == Min(Last, s + k)
    decreases k
  {
    var es := seq(k, _ => Forward);
    if k > 0 {
      assert es[0] == Forward;
      assert es[1..] == seq(k - 1, _ => Forward);
      ForwardRepeated(Next(s), k - 1);
    }
  }

  /** Pressing "Anterior" k times reaches step s - k, or stops at the first step. */
  lemma {:induction false} BackRepeated(s: nat, k: nat)
    requires s <= Last
    ensures Run(s, seq(k, _ => Back)) == Max(0, s - k)
    decreases k
  {
    var es := seq(k, _ => Back);
    if k > 0 {
      assert es[0] == Back;
      assert es[1..] == seq(k - 1, _ => Back);
      BackRepeated(Previous(s), k - 1);
    }
  }

  /** A run ends where its last jump put the step, moved by the buttons pressed after it. */
  lemma {:induction false} RunAfterJump(s: nat, pre: seq<Nav>, i: nat, post: seq<Nav>)
    requires s <= Last && i < |StepIds|
    requires forall k :: 0 <= k < |pre| ==> FromUi(pre[k])
    requires forall k :: 0 <= k < |post| ==> FromUi(post[k])
    ensures Run(s, pre + [Jump(i)] + post) == Run(i, post)
    decreases |pre|
  {
    var es := pre + [Jump(i)] + post;
    if pre == [] {
      assert es[0] == Jump(i) && es[1..] == post;
    } else {
      assert es[0] == pre[0];
      assert es[1..] == pre[1..] + [Jump(i)] + post;
      RunAfterJump(Apply(s, pre[0]), pre[1..], i, post);
    }
  }
}
