/**
 * The "Quick Links" of frontend/src/components/Footer.jsx: one anchor per
 * item, whose href is `'#' + item.toLowerCase().replace(' ', '-')`, and which
 * must land on the section ids of frontend/src/pages/Home.jsx.
 */
module Footer {
  import opened Text

  /** The items of the quick-link list, in order. */
  const QuickLinkItems: seq<string> := ["Home", "Features", "Get Started", "FAQ"]

  /** The ids of the page's sections, in the same order. */
  const SectionIds: seq<string> := ["home", "features", "get-started", "faq"]

  /** One rendered anchor: its React key, its href and its text. */
  datatype Link = Link(key: string, href: string, text: string)

  /** The href of one item. */
  function Href(item: string): (h: string)
    ensures |h| == |item| + 1
    ensures h[0] == '#'
  {
    "#" + ReplaceFirst(Lower(item), ' ', '-')
  }

  /**
   * Only the first space becomes '-': with the first space at `p`, position
   * `p` of the anchor is '-', every earlier character is lower-cased, and
   * everything after it is lower-cased with any further spaces kept.
   */
  lemma HrefAt(item: string, p: nat)
    requires p < |item| && item[p] == ' ' && ' ' !in item[..p]
    ensures Href(item)[p + 1] == '-'
    ensures forall k :: 0 <= k < |item| && k != p ==> Href(item)[k + 1] == LowerChar(item[k])
  {
    var lower := Lower(item);
    assert lower[..p] == Lower(item[..p]) by {
      assert forall k :: 0 <= k < p ==> lower[..p][k] == LowerChar(item[..p][k]);
    }
    assert ' ' !in lower[..p] by {
      forall k | 0 <= k < p ensures lower[k] != ' ' {
        assert item[..p][k] == item[k];
      }
    }
    ReplaceFirstAt(lower, ' ', '-', p);
  }

  /** An item without spaces is only lower-cased. */
  lemma HrefWithoutSpace(item: string)
    requires ' ' !in item
    ensures Href(item) == "#" + Lower(item)
  {
  }

  /** The `map` over the items: one link per item, in order, keyed and labelled by the item. */
  function QuickLinks(items: seq<string>): (links: seq<Link>)
    ensures |links| == |items|
    ensures forall k :: 0 <= k < |items| ==>
              links[k].key == items[k] && links[k].text == items[k] && links[k].href == Href(items[k])
  {
    seq(|items|, k requires 0 <= k < |items| => Link(items[k], Href(items[k]), items[k]))
  }

  // The per-item lemmas below take the item as a parameter fixed by their
  // requires: with a string literal as argument, the solver unfolds the
  // recursive Lower and ReplaceFirst without bound.

  /** The anchor of "Home". */
  lemma HomeHref(item: string)
    requires item == "Home"
    ensures Href(item) == "#home"
  {
  }

  /** The anchor of "Features". */
  lemma FeaturesHref(item: string)
    requires item == "Features"
    ensures Href(item) == "#features"
  {
  }

  /** The anchor of "FAQ". */
  lemma FaqHref(item: string)
    requires item == "FAQ"
    ensures Href(item) == "#faq"
  {
  }

  /** The one item with a space: its space becomes '-'. */
  lemma GetStartedHref(item: string)
    requires item == "Get Started"
    ensures Href(item) == "#get-started"
  {
    var lower := Lower(item);
    assert lower[0] == 'g' && lower[1] == 'e' && lower[2] == 't' && lower[3] == ' ';
    assert lower[4] == 's' && lower[5] == 't' && lower[6] == 'a' && lower[7] == 'r';
    assert lower[8] == 't' && lower[9] == 'e' && lower[10] == 'd';
    DashAfterGet(lower);
  }

  /** "get started" with its first space replaced. */
  lemma DashAfterGet(lower: string)
    requires |lower| == 11 && lower[..3] == "get" && lower[3] == ' ' && lower[4..] == "started"
    ensures ReplaceFirst(lower, ' ', '-') == "get-started"
  {
    ReplaceFirstAt(lower, ' ', '-', 3);
  }

  /** The four quick links, worked out. */
  lemma QuickLinkHrefs()
    ensures QuickLinks(QuickLinkItems)[0].href == "#home"
    ensures QuickLinks(QuickLinkItems)[1].href == "#features"
    ensures QuickLinks(QuickLinkItems)[2].href == "#get-started"
    ensures QuickLinks(QuickLinkItems)[3].href == "#faq"
  {
    HomeHref(QuickLinkItems[0]);
    FeaturesHref(QuickLinkItems[1]);
    GetStartedHref(QuickLinkItems[2]);
    FaqHref(QuickLinkItems[3]);
  }

  /**
   * Matching four computed anchors against the section ids, kept apart from
   * the string computations so the solver sees only the four equalities.
   */
  lemma AnchorsMatchSections(links: seq<Link>, ids: seq<string>)
    requires ids == SectionIds && |links| == 4
    requires links[0].href == "#home" && links[1].href == "#features"
    requires links[2].href == "#get-started" && links[3].href == "#faq"
    ensures forall k :: 0 <= k < |ids| ==> links[k].href == "#" + ids[k]
  {
  }

  /** Every quick link points at the section it names. */
  lemma QuickLinksHitSections()
    ensures |QuickLinks(QuickLinkItems)| == |SectionIds|
    ensures forall k :: 0 <= k < |SectionIds| ==> QuickLinks(QuickLinkItems)[k].href == "#" + SectionIds[k]
  {
    QuickLinkHrefs();
    AnchorsMatchSections(QuickLinks(QuickLinkItems), SectionIds);
  }
}
