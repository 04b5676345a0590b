/**
  The three single-select tag groups ("paid", "app", "loan"). A button's
  `active` class becomes an explicit flag, and the DOM queries of the widget
  become functions over the buttons of each group.
 */
module Tags {
  import opened Wrappers
  import opened Text

  datatype Section = Paid | App | Loan

  /** The order in which an add visits the groups: paid-section, app-section, loan-section. */
  const SectionOrder: seq<Section> := [Paid, App, Loan]

  /** A tag button: its text and whether it carries the `active` class. */
  datatype Button = Button(text: string, active: bool)

  predicate AtMostOneActive(bs: seq<Button>) {
    forall i, j :: 0 <= i < |bs| && 0 <= j < |bs| && bs[i].active && bs[j].active ==> i == j
  }

  /** Buttons with the given labels, none of them active. */
  function Inactive(labels: seq<string>): (bs: seq<Button>)
    ensures |bs| == |labels|
    ensures forall i :: 0 <= i < |bs| ==> bs[i] == Button(labels[i], false)
  {
    seq(|labels|, i requires 0 <= i < |labels| => Button(labels[i], false))
  }

  /** `querySelector("#<group> .active")`: the first active button of a group in document order. */
  function FirstActive(bs: seq<Button>): (r: Option<nat>)
    ensures r.Some? ==> r.value < |bs| && bs[r.value].active
    ensures r.Some? ==> forall j :: 0 <= j < r.value ==> !bs[j].active
    ensures r.None? ==> forall j :: 0 <= j < |bs| ==> !bs[j].active
  {
    if bs == [] then None
    else if bs[0].active then Some(0)
    else match FirstActive(bs[1..])
      case None => None
      case Some(k) => Some(k + 1)
  }

  /**
    `activeBtn.textContent.trim()` for the group's active button: no tag
    exactly when no button of the group is active, and otherwise the trimmed
    text of the first active one.
   */
  function ActiveTag(bs: seq<Button>): (t: Option<string>)
    ensures t.None? <==> forall j :: 0 <= j < |bs| ==> !bs[j].active
    ensures t.Some? ==> FirstActive(bs).Some? && t.value == Trim(bs[FirstActive(bs).value].text)
  {
    match FirstActive(bs)
    case None => None
    case Some(i) => Some(Trim(bs[i].text))
  }

  /** In a group with at most one active button, the captured tag is that button's trimmed text. */
  lemma ActiveTagOfActiveButton(bs: seq<Button>, j: nat)
    requires AtMostOneActive(bs) && j < |bs| && bs[j].active
    ensures ActiveTag(bs) == Some(Trim(bs[j].text))
  {
  }

  function AsList(t: Option<string>): (l: seq<string>)
    ensures |l| <= 1
  {
    match t
    case None => []
    case Some(v) => [v]
  }

  predicate Complete(sections: map<Section, seq<Button>>) {
    Paid in sections && App in sections && Loan in sections
  }

  /** The tags an add captures from the first `n` groups of SectionOrder, visited left to right. */
  function TagsFor(sections: map<Section, seq<Button>>, n: nat): (tags: seq<string>)
    requires Complete(sections) && n <= |SectionOrder|
    ensures |tags| <= n
  {
    if n == 0 then []
    else
      var group := SectionOrder[n - 1];
      assert group.Paid? || group.App? || group.Loan?;
      TagsFor(sections, n - 1) + AsList(ActiveTag(sections[group]))
  }

  /**
    The captured tags are, in this order, the paid tag, the app tag and the
    loan tag, each only when its group has an active button: at most one per
    group and at most three in all.
   */
  lemma {:induction false} CapturedOrder(sections: map<Section, seq<Button>>)
    requires Complete(sections)
    ensures TagsFor(sections, 3)
         == AsList(ActiveTag(sections[Paid])) + AsList(ActiveTag(sections[App])) + AsList(ActiveTag(sections[Loan]))
    ensures |TagsFor(sections, 3)| <= 3
  {
    assert TagsFor(sections, 1) == AsList(ActiveTag(sections[Paid]));
  }

  /** The group after `highlightButton`: every button cleared, then button `i` made active. */
  function Activated(bs: seq<Button>, i: nat): (r: seq<Button>)
    requires i < |bs|
    ensures |r| == |bs| && AtMostOneActive(r)
    ensures forall j :: 0 <= j < |r| ==> r[j].text == bs[j].text && (r[j].active <==> j == i)
    ensures FirstActive(r) == Some(i)
    ensures ActiveTag(r) == Some(Trim(bs[i].text))
  {
    var r := seq(|bs|, j requires 0 <= j < |bs| => Button(bs[j].text, j == i));
    assert r[i].active;
    r
  }

  /** The tag buttons of the page, group by group. */
  class TagPanel {
    var sections: map<Section, seq<Button>>

    /** Every group is present and has at most one active button. */
    ghost predicate Valid()
      reads this
    {
      Complete(sections) && forall s :: s in sections ==> AtMostOneActive(sections[s])
    }

    /** The page's buttons as loaded: the given labels per group, none active. */
    constructor (paid: seq<string>, app: seq<string>, loan: seq<string>)
      ensures Valid()
      ensures sections == map[Paid := Inactive(paid), App := Inactive(app), Loan := Inactive(loan)]
    {
      sections := map[Paid := Inactive(paid), App := Inactive(app), Loan := Inactive(loan)];
    }

    /**
      `highlightButton(btn)` for button `i` of group `s`: the `active` class is
      removed from every button of the group and added to `btn`; the other
      groups are untouched.
     */
    method Highlight(s: Section, i: nat)
      requires Valid() && i < |sections[s]|
      modifies this
      ensures Valid()
      ensures sections == old(sections)[s := Activated(old(sections[s]), i)]
    {
      var bs := sections[s];
      ghost var before := bs;
      var j := 0;
      while j < |bs|
        invariant 0 <= j <= |bs| == |before|
        invariant forall k :: 0 <= k < j ==> bs[k] == Button(before[k].text, false)
        invariant forall k :: j <= k < |bs| ==> bs[k] == before[k]
      {
        bs := bs[j := bs[j].(active := false)];
        j := j + 1;
      }
      bs := bs[i := bs[i].(active := true)];
      ghost var target := Activated(before, i);
      assert forall k :: 0 <= k < |bs| ==> bs[k] == target[k];
      assert bs == target;
      sections := sections[s := bs];
    }

    /**
      The tag capture of an add: for each group in the order paid, app, loan,
      the trimmed text of its active button is pushed, and a group without one
      is skipped.
     */
    method SelectedTags() returns (tags: seq<string>)
      requires Complete(sections)
      ensures tags == TagsFor(sections, |SectionOrder|)
      ensures |tags| <= 3
    {
      tags := [];
      var n := 0;
      while n < |SectionOrder|
        invariant 0 <= n <= |SectionOrder|
        invariant tags == TagsFor(sections, n)
      {
        var group := SectionOrder[n];
        assert group.Paid? || group.App? || group.Loan?;
        var active := ActiveTag(sections[group]);
        if active.Some? {
          tags := tags + [active.value];
        }
        n := n + 1;
      }
    }
  }
}
