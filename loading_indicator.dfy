/** The in-page loading indicator (eagle-task/src/components/LoadingIndicator.jsx):
    while `loading`, an interval steps a local counter through nine captions
    and clears itself after the last. Each firing of the interval is one
    `Tick`; the 1.5 s timing is not modelled. */
module LoadingIndicator {

  const LoadingMessages: seq<string> := [
    "Checking into Beacon St. \U{1F4DA}",
    "Walking to Bapst \U{1F4DD}",
    "Working in O`Neill \U{1F4CA}",
    "Talking to Father Leahy \U{1F9D0}",
    "Going to the Mods \U{2705}",
    "Almost there! \U{1F680}",
    "Paying Tuition \U{1F4B8}",
    "Getting ready for graduation \U{1F393}",
    "EagleTask is loading..."
  ]

  const LastMessage := "EagleTask is loading..."

  /** The caption that `index` ticks of one effect run lead to (for
      `index >= 1`): `LoadingMessages[index]` up to the last caption, which then stays. */
  function CaptionAfter(index: nat): (m: string)
    requires index >= 1
    ensures m in LoadingMessages
    ensures index < |LoadingMessages| ==> m == LoadingMessages[index]
    ensures index >= |LoadingMessages| - 1 ==> m == LastMessage
  {
    if index < |LoadingMessages| then LoadingMessages[index] else LoadingMessages[|LoadingMessages| - 1]
  }

  class Indicator {
    var currentMessage: string
    /** The effect's local `index` and whether its interval is still set. */
    var index: nat
    var intervalActive: bool

    /** The caption is always one of the nine; an active interval has not yet
        reached the end; after at least one tick the caption is the one the
        counter leads to. */
    ghost predicate Valid()
      reads this
    {
      && currentMessage in LoadingMessages
      && index <= |LoadingMessages|
      && (intervalActive ==> index < |LoadingMessages|)
      && (!intervalActive && index >= 1 ==> index == |LoadingMessages|)
      && (index >= 1 ==> currentMessage == CaptionAfter(index))
    }

    /** First render with the `loading` prop: the first caption, and the
        effect starts its interval only when `loading`. */
    constructor(loading: bool)
      ensures Valid()
      ensures currentMessage == LoadingMessages[0]
      ensures index == 0 && intervalActive == loading
    {
      currentMessage := LoadingMessages[0];
      index := 0;
      intervalActive := loading;
    }

    /** The `loading` prop changes: the old interval is cleared, and a new run
        with its counter at 0 starts only when `loading` is now true. The
        caption is not reset. */
    method LoadingChanged(loading: bool)
      requires Valid()
      modifies this
      ensures Valid()
      ensures index == 0 && intervalActive == loading
      ensures currentMessage == old(currentMessage)
    {
      index := 0;
      intervalActive := loading;
    }

    /** One firing of the interval: the counter advances; below nine the
        caption becomes `LoadingMessages[index]`, at nine the interval is
        cleared and the caption stays. Without an active interval nothing happens. */
    method Tick()
      requires Valid()
      modifies this
      ensures Valid()
      ensures !old(intervalActive) ==> index == old(index) && currentMessage == old(currentMessage) && !intervalActive
      ensures old(intervalActive) ==> index == old(index) + 1
      ensures old(intervalActive) && index < |LoadingMessages| ==> currentMessage == LoadingMessages[index] && intervalActive
      ensures old(intervalActive) && index == |LoadingMessages| ==> currentMessage == old(currentMessage) && !intervalActive
      ensures index >= 1 ==> currentMessage == CaptionAfter(index)
    {
      if !intervalActive {
        return;
      }
      index := index + 1;
      if index < |LoadingMessages| {
        currentMessage := LoadingMessages[index];
      } else {
        intervalActive := false;
      }
    }

    /** `n` firings from the start of a run: the counter stops at nine, the
        interval is cleared exactly once nine ticks have passed, and the
        caption is the one the counter leads to. */
    method TickTimes(n: nat)
      requires Valid() && index == 0 && intervalActive
      modifies this
      ensures Valid()
      ensures index == if n < |LoadingMessages| then n else |LoadingMessages|
      ensures intervalActive <==> n < |LoadingMessages|
      ensures n == 0 ==> currentMessage == old(currentMessage)
      ensures n >= 1 ==> currentMessage == CaptionAfter(n)
      ensures n >= |LoadingMessages| - 1 ==> currentMessage == LastMessage
    {
      var k := 0;
      while k < n
        invariant 0 <= k <= n
        invariant Valid()
        invariant index == if k < |LoadingMessages| then k else |LoadingMessages|
        invariant intervalActive <==> k < |LoadingMessages|
        invariant k == 0 ==> currentMessage == old(currentMessage)
        invariant k >= 1 ==> currentMessage == CaptionAfter(k)
      {
        Tick();
        k := k + 1;
      }
    }
  }
}
