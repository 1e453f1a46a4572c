/** The start-up screen (eagle-task/src/components/Loading.jsx): a progress bar
    that counts to 100 while shown, then a spinner whose caption rotates
    through six texts. Each firing of an interval or timeout callback is one
    method call; the timings are not modelled. */
module Loading {

  const Messages: seq<string> := [
    "Checking into Beacon St. \U{1F4DA}",
    "Walking to Bapst \U{1F4DD}",
    "Working in O`Neill \U{1F4CA}",
    "Talking to Father Leahy \U{1F9D0}",
    "Going to the Mods \U{2705}",
    "Almost there! \U{1F680}"
  ]

  const InitialMessage := "Spooling up our backend, this may take a bit! \U{2699}\U{FE0F}"

  /** `prev < 100 ? prev + 1 : 100` */
  function NextProgress(prev: int): (r: int)
    ensures prev < 100 ==> r == prev + 1
    ensures prev >= 100 ==> r == 100
    ensures 0 <= prev <= 100 ==> prev <= r <= 100
  {
    if prev < 100 then prev + 1 else 100
  }

  /** The progress after `n` ticks from 0. */
  function ProgressAfter(n: nat): (r: int)
    ensures 0 <= r <= 100
  {
    if n == 0 then 0 else NextProgress(ProgressAfter(n - 1))
  }

  /** After `n` ticks from 0 the bar stands at min(n, 100). */
  lemma {:induction false} ProgressAfterIsMin(n: nat)
    ensures ProgressAfter(n) == if n < 100 then n else 100
  {
    if n > 0 {
      ProgressAfterIsMin(n - 1);
    }
  }

  /** `messages.findIndex(msg => msg.text === prev)`: the first matching
      position, or -1. */
  function FindIndex(texts: seq<string>, prev: string): (k: int)
    ensures -1 <= k < |texts|
    ensures k == -1 <==> prev !in texts
    ensures k >= 0 ==> texts[k] == prev && forall j | 0 <= j < k :: texts[j] != prev
  {
    if texts == [] then -1
    else if texts[0] == prev then 0
    else
      var k := FindIndex(texts[1..], prev);
      if k == -1 then -1 else k + 1
  }

  /** `texts[(texts.findIndex(t => t === prev) + 1) % texts.length]`: the
      entry after `prev`, wrapping round; a text not in the list is followed
      by the first entry. */
  function NextIn(texts: seq<string>, prev: string): (r: string)
    requires |texts| > 0
    ensures r in texts
    ensures prev !in texts ==> r == texts[0]
  {
    var k := FindIndex(texts, prev);
    WrapStep(k + 1, |texts|);
    texts[(k + 1) % |texts|]
  }

  /** Stepping one past a position: inside the list it is the next position,
      at the end it wraps to 0. */
  lemma WrapStep(x: int, n: int)
    requires 0 <= x <= n && n > 0
    ensures x % n == if x == n then 0 else x
  {
  }

  /** In a list without repeats each entry is followed by the next one, and
      the last by the first. */
  lemma NextInAdvances(texts: seq<string>, i: nat)
    requires Distinct(texts) && i < |texts|
    ensures i < |texts| - 1 ==> NextIn(texts, texts[i]) == texts[i + 1]
    ensures i == |texts| - 1 ==> NextIn(texts, texts[i]) == texts[0]
  {
    FindIndexOfDistinct(texts, i);
    WrapStep(i + 1, |texts|);
  }

  /** The spinner's caption step over the six captions. */
  function NextMessage(prev: string): (r: string)
    ensures r in Messages
    ensures prev !in Messages ==> r == Messages[0]
    ensures prev == Messages[|Messages| - 1] ==> r == Messages[0]
  {
    MessagesDistinct();
    NextInAdvances(Messages, |Messages| - 1);
    NextIn(Messages, prev)
  }

  /** The start-up caption is not one of the six, so the first rotation
      shows the first of them. */
  lemma FirstRotation()
    ensures InitialMessage !in Messages
    ensures NextMessage(InitialMessage) == Messages[0]
  {
  }

  /** Every caption but the last is followed by the next one in the list. */
  lemma NextMessageAdvances(i: nat)
    requires i < |Messages| - 1
    ensures NextMessage(Messages[i]) == Messages[i + 1]
  {
    MessagesDistinct();
    NextInAdvances(Messages, i);
  }

  /** In a list without repeats each entry is found at its own position. */
  lemma FindIndexOfDistinct(texts: seq<string>, i: nat)
    requires i < |texts|
    requires Distinct(texts)
    ensures FindIndex(texts, texts[i]) == i
  {
    assert texts[i] in texts;
  }

  /** No entry occurs twice. */
  predicate Distinct(texts: seq<string>) {
    forall a, b | 0 <= a < b < |texts| :: texts[a] != texts[b]
  }

  /** The six captions are pairwise different, so each has one position. */
  lemma MessagesDistinct()
    ensures Distinct(Messages)
  {
  }

  class LoadingScreen {
    var showProgressBar: bool
    var currentMessage: string
    var progress: int

    ghost predicate Valid()
      reads this
    {
      0 <= progress <= 100
    }

    constructor()
      ensures Valid()
      ensures showProgressBar && currentMessage == InitialMessage && progress == 0
    {
      showProgressBar, currentMessage, progress := true, InitialMessage, 0;
    }

    /** The 100 ms interval fires: it runs only while the bar is shown. */
    method ProgressTick()
      requires Valid()
      modifies this
      ensures Valid()
      ensures showProgressBar ==> progress == NextProgress(old(progress))
      ensures !showProgressBar ==> progress == old(progress)
      ensures old(progress) <= progress
      ensures showProgressBar == old(showProgressBar) && currentMessage == old(currentMessage)
    {
      if showProgressBar {
        progress := NextProgress(progress);
      }
    }

    /** The 10 s timeout fires: the bar is hidden (its interval is cleared). */
    method HideProgressBar()
      requires Valid()
      modifies this
      ensures Valid()
      ensures !showProgressBar
      ensures progress == old(progress) && currentMessage == old(currentMessage)
    {
      showProgressBar := false;
    }

    /** The 1.5 s interval fires: it runs only once the bar is hidden. */
    method RotateTick()
      requires Valid()
      modifies this
      ensures Valid()
      ensures !showProgressBar ==> currentMessage == NextMessage(old(currentMessage)) && currentMessage in Messages
      ensures showProgressBar ==> currentMessage == old(currentMessage)
      ensures showProgressBar == old(showProgressBar) && progress == old(progress)
    {
      if !showProgressBar {
        currentMessage := NextMessage(currentMessage);
      }
    }
  }
}
