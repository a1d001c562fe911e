/** The typewriter effect: a state machine over `displayText`, `wordIndex`, `charIndex` and
    `isDeleting`, driven by a tick timer (re-armed after every state change while mounted)
    and by the delayed switch to deleting that the typing tick schedules when a word is
    complete. The typing tick keeps firing while that switch is pending, so `charIndex` can
    run past the end of the word; `substring` then clamps the displayed text. */
module Typewriter {
  import opened JsText

  class TypewriterEffect {
    /** The `text` of each entry of the `words` prop. */
    const words: seq<string>
    var mounted: bool
    var displayText: string
    var wordIndex: nat
    var charIndex: int
    var isDeleting: bool
    /** Scheduled `setIsDeleting(true)` callbacks that have not run yet. */
    var switchPending: nat

    /** The displayed text is the current word clamped to `charIndex`; the word index stays in
        range; a deletion is under way only from a non-empty prefix; at most one switch is
        pending, and only while typing past the end of a non-empty word. */
    ghost predicate Valid()
      reads this
    {
      && 0 <= charIndex
      && (|words| == 0 ==> wordIndex == 0 && charIndex == 0 && displayText == [] && !isDeleting && switchPending == 0)
      && (|words| > 0 ==> wordIndex < |words| && displayText == Prefix(words[wordIndex], charIndex))
      && (isDeleting ==> 1 <= charIndex && switchPending == 0)
      && switchPending <= 1
      && (switchPending == 1 ==> !isDeleting && |words| > 0 && 1 <= |words[wordIndex]| <= charIndex)
    }

    constructor (words: seq<string>)
      ensures Valid()
      ensures this.words == words && !mounted && displayText == [] && wordIndex == 0 && charIndex == 0
      ensures !isDeleting && switchPending == 0
    {
      this.words := words;
      mounted := false;
      displayText := [];
      wordIndex := 0;
      charIndex := 0;
      isDeleting := false;
      switchPending := 0;
    }

    /** What the component renders: before mount the first word (or nothing when there are no
        words), afterwards the typed text. */
    function Rendered(): (r: string)
      reads this
      requires Valid()
      ensures !mounted ==> r == (if |words| > 0 then words[0] else [])
      ensures mounted && |words| > 0 ==> |r| <= |words[wordIndex]| && r == words[wordIndex][..|r|]
    {
      if !mounted then (if |words| > 0 then words[0] else []) else displayText
    }

    /** The mount effect; from now on the tick timer runs. */
    method Mount()
      modifies this`mounted
      ensures mounted
    {
      mounted := true;
    }

    /** One run of `type`. With no words `words[wordIndex]` throws before any state is set.
        Deleting: one code unit fewer, and on reaching zero typing resumes with the next word
        (cyclically). Typing: one code unit more, and the tick that completes the word
        schedules the switch to deleting. */
    method Tick()
      requires Valid() && mounted
      modifies this`displayText, this`wordIndex, this`charIndex, this`isDeleting, this`switchPending
      ensures Valid()
      ensures |words| == 0 ==>
        && displayText == old(displayText) && charIndex == old(charIndex) && wordIndex == old(wordIndex)
        && isDeleting == old(isDeleting) && switchPending == old(switchPending)
      ensures |words| > 0 && old(isDeleting) ==>
        && charIndex == old(charIndex) - 1
        && displayText == Prefix(words[old(wordIndex)], old(charIndex) - 1)
        && switchPending == old(switchPending)
        && (charIndex == 0 ==> !isDeleting && wordIndex == (old(wordIndex) + 1) % |words|)
        && (charIndex != 0 ==> isDeleting && wordIndex == old(wordIndex))
      ensures |words| > 0 && !old(isDeleting) ==>
        && charIndex == old(charIndex) + 1
        && displayText == Prefix(words[wordIndex], old(charIndex) + 1)
        && !isDeleting && wordIndex == old(wordIndex)
        && switchPending == old(switchPending) + (if charIndex == |words[wordIndex]| then 1 else 0)
    {
      if |words| == 0 {
        return;
      }
      var currentWord := words[wordIndex];
      if isDeleting {
        displayText := Prefix(currentWord, charIndex - 1);
        charIndex := charIndex - 1;
        if charIndex == 0 {
          isDeleting := false;
          wordIndex := (wordIndex + 1) % |words|;
        }
      } else {
        displayText := Prefix(currentWord, charIndex + 1);
        charIndex := charIndex + 1;
        if charIndex == |currentWord| {
          switchPending := switchPending + 1;
        }
      }
    }

    /** The delayed `setIsDeleting(true)`, enabled once a word has been typed out. */
    method SwitchFires()
      requires Valid() && switchPending > 0
      modifies this`isDeleting, this`switchPending
      ensures Valid()
      ensures isDeleting && switchPending == old(switchPending) - 1
    {
      isDeleting := true;
      switchPending := switchPending - 1;
    }
  }
}
