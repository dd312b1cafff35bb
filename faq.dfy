/**
 * The FAQ accordion of frontend/src/pages/Home.jsx: one state cell `openFaq`
 * (null or the index of the open entry) over the five entries of `faqs`;
 * clicking an entry closes it if it is open and otherwise makes it the only
 * open one.
 */
module Faq {
  import opened Wrappers

  /** The number of entries in `faqs`. */
  const FaqCount: nat := 5

  datatype Chevron = ChevronUp | ChevronDown

  predicate IsOpen(openFaq: Option<nat>, i: nat) {
    openFaq == Some(i)
  }

  /** The click handler's new value: `openFaq === i ? null : i`. */
  function Toggled(openFaq: Option<nat>, i: nat): (r: Option<nat>)
    ensures IsOpen(r, i) <==> !IsOpen(openFaq, i)
    ensures forall j :: j != i ==> !IsOpen(r, j)
  {
    if openFaq == Some(i) then None else Some(i)
  }

  /** Clicking the same entry twice gives it back its open or closed status. */
  lemma ToggleTwice(openFaq: Option<nat>, i: nat)
    ensures IsOpen(Toggled(Toggled(openFaq, i), i), i) == IsOpen(openFaq, i)
  {
  }

  /** The chevron of entry `i`: up exactly when it is open. */
  function ChevronOf(openFaq: Option<nat>, i: nat): (c: Chevron)
    ensures c == ChevronUp <==> IsOpen(openFaq, i)
  {
    if openFaq == Some(i) then ChevronUp else ChevronDown
  }

  /** For each entry in list order, whether its answer block is rendered. */
  function AnswersShown(openFaq: Option<nat>): (r: seq<bool>)
    ensures |r| == FaqCount
    ensures forall i :: 0 <= i < FaqCount ==> (r[i] <==> IsOpen(openFaq, i))
  {
    seq(FaqCount, i requires 0 <= i < FaqCount => openFaq == Some(i))
  }

  function CountTrue(bs: seq<bool>): nat {
    if bs == [] then 0 else (if bs[0] then 1 else 0) + CountTrue(bs[1..])
  }

  /** A sequence true at most at position `j` has at most one true entry, one iff it is true at `j`. */
  lemma {:induction false} CountAtMostOne(bs: seq<bool>, j: nat)
    requires forall k :: 0 <= k < |bs| && bs[k] ==> k == j
    ensures CountTrue(bs) == if j < |bs| && bs[j] then 1 else 0
  {
    if bs != [] {
      if j == 0 {
        assert forall k :: 0 <= k < |bs[1..]| ==> !bs[1..][k];
        CountNone(bs[1..]);
      } else {
        CountAtMostOne(bs[1..], j - 1);
      }
    }
  }

  lemma {:induction false} CountNone(bs: seq<bool>)
    requires forall k :: 0 <= k < |bs| ==> !bs[k]
    ensures CountTrue(bs) == 0
  {
    if bs != [] {
      CountNone(bs[1..]);
    }
  }

  /** At most one answer is rendered: one when a valid entry is open, none when all are closed. */
  lemma AtMostOneAnswer(openFaq: Option<nat>)
    requires openFaq.None? || openFaq.value < FaqCount
    ensures CountTrue(AnswersShown(openFaq)) == if openFaq.Some? then 1 else 0
  {
    var shown := AnswersShown(openFaq);
    match openFaq {
      case None => CountNone(shown);
      case Some(j) => CountAtMostOne(shown, j);
    }
  }

  class Accordion {
    var openFaq: Option<nat>

    /** `openFaq` is null or the index of one of the entries. */
    ghost predicate Valid()
      reads this
    {
      openFaq.None? || openFaq.value < FaqCount
    }

    /** `useState(null)`: everything starts closed. */
    constructor ()
      ensures Valid() && openFaq == None
    {
      openFaq := None;
    }

    /** A click on the button of entry `i`, one of the rendered entries. */
    method Click(i: nat)
      requires Valid() && i < FaqCount
      modifies this
      ensures Valid()
      ensures openFaq == Toggled(old(openFaq), i)
    {
      openFaq := if openFaq == Some(i) then None else Some(i);
    }
  }
}
