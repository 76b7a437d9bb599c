/** The typewriter effect: a text revealed one character per tick, with a completion
    callback fired once the whole text is shown.

    The component's three pieces of state become the fields of `Typewriter`; one run
    of the effect body (the timeout callback while characters remain, the completion
    branch afterwards) is `Tick`. Timers are abstracted away: a tick is the moment the
    scheduled timeout fires. */
module Typing {

  class Typewriter {
    /** The text to type. */
    const text: string
    /** What is shown so far. */
    var displayText: string
    /** The index of the next character to type. */
    var currentIndex: nat
    /** Set once the end of the text has been reached. */
    var isComplete: bool
    /** How often `onComplete` has been called. */
    ghost var completions: nat

    /** What is shown is exactly the typed prefix, completion only happens at the end of the text,
        and `onComplete` has been called once if complete and never before. */
    ghost predicate Valid()
      reads this
    {
      && currentIndex <= |text|
      && displayText == text[..currentIndex]
      && (isComplete ==> currentIndex == |text|)
      && completions == (if isComplete then 1 else 0)
    }

    /** The initial state: nothing shown, at index 0, not complete. */
    constructor(text: string)
      ensures Valid()
      ensures this.text == text
      ensures displayText == "" && currentIndex == 0 && !isComplete && completions == 0
    {
      this.text := text;
      displayText := "";
      currentIndex := 0;
      isComplete := false;
      completions := 0;
    }

    /** One run of the effect body. While a character remains it appends `text[currentIndex]` and
        advances the index; at the end of the text it marks completion and calls `onComplete` (the
        result says whether it did); once complete it does nothing. */
    method Tick() returns (fired: bool)
      requires Valid()
      modifies this
      ensures Valid()
      ensures fired <==> old(currentIndex) == |text| && !old(isComplete)
      ensures old(currentIndex) < |text| ==>
        && displayText == old(displayText) + [text[old(currentIndex)]]
        && currentIndex == old(currentIndex) + 1
        && isComplete == old(isComplete)
      ensures old(currentIndex) == |text| ==>
        displayText == old(displayText) && currentIndex == old(currentIndex) && isComplete
      ensures old(isComplete) ==>
        displayText == old(displayText) && currentIndex == old(currentIndex) && isComplete && completions == old(completions)
      ensures fired ==> completions == old(completions) + 1
    {
      fired := false;
      if currentIndex < |text| {
        displayText := displayText + [text[currentIndex]];
        currentIndex := currentIndex + 1;
      } else if !isComplete {
        isComplete := true;
        completions := completions + 1;
        fired := true;
      }
    }
  }

  function Min(a: nat, b: nat): nat { if a <= b then a else b }

  /** A fresh typewriter over `text` after `ticks` ticks: what it shows, whether it is complete,
      and how often `onComplete` was called. The text is fully shown after `|text|` ticks, and the
      callback fires exactly once, on tick `|text| + 1`. */
  method Run(text: string, ticks: nat) returns (shown: string, complete: bool, callbacks: nat)
    ensures shown == text[..Min(ticks, |text|)]
    ensures complete <==> ticks > |text|
    ensures callbacks == if ticks > |text| then 1 else 0
  {
    var t := new Typewriter(text);
    callbacks := 0;
    var k := 0;
    while k < ticks
      invariant k <= ticks
      invariant t.Valid() && t.text == text
      invariant t.currentIndex == Min(k, |text|)
      invariant t.isComplete <==> k > |text|
      invariant callbacks == t.completions
    {
      var fired := t.Tick();
      if fired {
        callbacks := callbacks + 1;
      }
      k := k + 1;
    }
    shown, complete := t.displayText, t.isComplete;
  }
}
