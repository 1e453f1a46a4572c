/** The token-help page (eagle-task/src/components/Help.jsx): a seven-step
    accordion in which at most one step is open. */
module Help {
  import opened Outcomes

  const Steps: seq<string> := [
    "Step 1: Log in to Canvas",
    "Step 2: Open Account Settings",
    "Step 3: Create an Access Token",
    "Step 4: Set Token Details",
    "Step 5: Copy Your Token",
    "Step 6: Paste the Token in EagleTask",
    "Important: Keep Your Token Secure"
  ]

  /** `openIndex === index ? null : index`: clicking the open step closes it,
      clicking any other step opens exactly that one. */
  function NextOpen(openIndex: Option<nat>, index: nat): (r: Option<nat>)
    ensures openIndex == Some(index) ==> r == None
    ensures openIndex != Some(index) ==> r == Some(index)
  {
    if openIndex == Some(index) then None else Some(index)
  }

  /** The steps whose body is rendered (`openIndex === index`). */
  function OpenSteps(openIndex: Option<nat>): (s: set<nat>)
    ensures |s| <= 1
    ensures forall i | i in s :: i < |Steps| && openIndex == Some(i)
    ensures forall i | 0 <= i < |Steps| && openIndex == Some(i) :: i in s
  {
    if openIndex.Some? && openIndex.value < |Steps| then {openIndex.value} else {}
  }

  /** The open step after a run of clicks from all-closed. */
  function AfterClicks(clicks: seq<nat>): Option<nat> {
    if clicks == [] then None else NextOpen(AfterClicks(clicks[..|clicks| - 1]), clicks[|clicks| - 1])
  }

  /** After any run of clicks either every step is closed or the last-clicked
      step is the open one, so at most one body is ever shown. */
  lemma {:induction false} AfterClicksOpensLast(clicks: seq<nat>)
    ensures AfterClicks(clicks) == None || (clicks != [] && AfterClicks(clicks) == Some(clicks[|clicks| - 1]))
  {
    if clicks != [] {
      AfterClicksOpensLast(clicks[..|clicks| - 1]);
    }
  }

  /** Two clicks on step `i` leave every step closed, unless `i` was the open
      step before them, which is then open again; from all-closed the pair
      returns to all-closed. */
  lemma DoubleClick(clicks: seq<nat>, i: nat)
    ensures AfterClicks(clicks + [i, i]) == if AfterClicks(clicks) == Some(i) then Some(i) else None
    ensures AfterClicks(clicks) == None ==> AfterClicks(clicks + [i, i]) == None
  {
    var once := clicks + [i];
    assert (clicks + [i, i])[..|clicks| + 1] == once;
    assert once[..|clicks|] == clicks;
  }

  class HelpView {
    var openIndex: Option<nat>

    constructor()
      ensures openIndex == None
    {
      openIndex := None;
    }

    /** `toggleAccordion(index)` */
    method ToggleAccordion(index: nat)
      modifies this
      ensures openIndex == NextOpen(old(openIndex), index)
    {
      openIndex := if openIndex == Some(index) then None else Some(index);
    }

    /** The step bodies on screen: none or one. */
    function Shown(): (s: set<nat>)
      reads this
      ensures |s| <= 1
      ensures openIndex == None ==> s == {}
    {
      OpenSteps(openIndex)
    }
  }
}
