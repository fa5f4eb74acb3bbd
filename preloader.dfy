/** The preloader of script.js and src/scripts/main.js (initPreloader): after
    a start delay the text is typed into its element one character per timer
    tick, and a last timer then hides the cursor, slides the preloader away
    and lets the page scroll again.

    The timers are events: `pending` is the one timer the script has
    scheduled and not yet seen fire, `clock` the time in milliseconds (since
    initPreloader) at which the last one fired. */
module Preloader {
  /** textToType, typingSpeed and delayAfterFinishing. */
  const TextToType: string := "NavX Team"
  const TypingSpeed: nat := 150
  const DelayAfterFinishing: nat := 800
  /** The delay of the first typeWriter call. */
  const StartDelay: nat := 500

  /** The one scheduled timer: none, typeWriter, or finishLoading, with the
      time it is due. */
  datatype Timer = Idle | TypeAt(due: nat) | FinishAt(due: nat)

  /** When typeWriter runs with `charIndex` characters typed. */
  function TypeTime(charIndex: nat): nat
  {
    StartDelay + charIndex * TypingSpeed
  }

  /** When finishLoading runs for a text of `n` characters: the last
      typeWriter call (the one that finds nothing left to type) runs at
      TypeTime(n) and schedules it after the closing delay. */
  function FinishTime(n: nat): nat
  {
    StartDelay + n * TypingSpeed + DelayAfterFinishing
  }

  /** "NavX Team" has nine characters, so the page is revealed 2650 ms after
      initPreloader. */
  lemma NavXRevealTime()
    ensures |TextToType| == 9
    ensures FinishTime(|TextToType|) == 2650
  {
  }

  class Typewriter {
    /** The text to type. */
    const target: string
    /** What the text element held before typing started. */
    const initial: string
    /** innerHTML of the text element. */
    var text: string
    var charIndex: nat
    var pending: Timer
    var clock: nat
    /** The cursor is hidden, the preloader raised and the body scrolls. */
    var finished: bool
    /** How often finishLoading has run. */
    ghost var finishCalls: nat

    /** The element holds the first `charIndex` characters after its initial
        content; a typeWriter timer is due 150 ms after the previous one; a
        finishLoading timer only follows a complete text; and once the page is
        revealed nothing is scheduled any more. */
    ghost predicate Valid()
      reads this
    {
      && charIndex <= |target|
      && text == initial + target[..charIndex]
      && (pending.TypeAt? ==> !finished && pending.due == TypeTime(charIndex) && clock <= pending.due)
      && (pending.FinishAt? ==> !finished && charIndex == |target| && pending.due == FinishTime(|target|) && clock <= pending.due)
      && (pending == Idle && !finished ==> charIndex == 0 && clock == 0)
      && (finished ==> pending == Idle && charIndex == |target| && clock == FinishTime(|target|))
      && finishCalls == (if finished then 1 else 0)
    }

    /** initPreloader of script.js: the first typeWriter call is always
        scheduled 500 ms ahead. */
    constructor Start(target: string, initial: string)
      ensures Valid()
      ensures this.target == target && this.initial == initial
      ensures text == initial && charIndex == 0 && clock == 0
      ensures pending == TypeAt(StartDelay) && !finished
    {
      this.target := target;
      this.initial := initial;
      text := initial;
      charIndex := 0;
      pending := TypeAt(StartDelay);
      clock := 0;
      finished := false;
      finishCalls := 0;
    }

    /** initPreloader of src/scripts/main.js: when the text element, the
        preloader or the cursor is missing it returns without scheduling
        anything. */
    constructor StartGuarded(target: string, initial: string, elementsPresent: bool)
      ensures Valid()
      ensures this.target == target && this.initial == initial
      ensures text == initial && charIndex == 0 && clock == 0 && !finished
      ensures pending == (if elementsPresent then TypeAt(StartDelay) else Idle)
    {
      this.target := target;
      this.initial := initial;
      text := initial;
      charIndex := 0;
      pending := if elementsPresent then TypeAt(StartDelay) else Idle;
      clock := 0;
      finished := false;
      finishCalls := 0;
    }

    /** The scheduled timer fires. typeWriter appends the next character and
        schedules itself 150 ms later, or, with the whole text typed,
        schedules finishLoading 800 ms later; finishLoading reveals the
        page. With nothing scheduled nothing happens. */
    method Fire()
      requires Valid()
      modifies this`text, this`charIndex, this`pending, this`clock, this`finished, this`finishCalls
      ensures Valid()
      ensures old(pending) == Idle ==>
        && text == old(text) && charIndex == old(charIndex) && pending == Idle
        && clock == old(clock) && finished == old(finished) && finishCalls == old(finishCalls)
      ensures old(pending).TypeAt? && old(charIndex) < |target| ==>
        && clock == old(pending).due
        && charIndex == old(charIndex) + 1
        && text == old(text) + [target[old(charIndex)]]
        && pending == TypeAt(clock + TypingSpeed) && !finished
      ensures old(pending).TypeAt? && old(charIndex) == |target| ==>
        && clock == old(pending).due
        && charIndex == old(charIndex) && text == old(text)
        && pending == FinishAt(clock + DelayAfterFinishing) && !finished
      ensures old(pending).FinishAt? ==>
        && clock == old(pending).due && finished && pending == Idle
        && text == old(text) && charIndex == old(charIndex) && finishCalls == 1
    {
      match pending
      case Idle =>
      case TypeAt(due) =>
        clock := due;
        if charIndex < |target| {
          text := text + [target[charIndex]];
          assert initial + target[..charIndex + 1] == initial + target[..charIndex] + [target[charIndex]];
          charIndex := charIndex + 1;
          pending := TypeAt(due + TypingSpeed);
        } else {
          pending := FinishAt(due + DelayAfterFinishing);
        }
      case FinishAt(due) =>
        clock := due;
        finished := true;
        finishCalls := finishCalls + 1;
        pending := Idle;
    }

    /** How many timers are still to fire before the page is revealed. */
    ghost function Remaining(): nat
      reads this`pending, this`charIndex
      requires charIndex <= |target|
    {
      match pending
      case Idle => 0
      case FinishAt(_) => 1
      case TypeAt(_) => |target| - charIndex + 2
    }

    /** Let every timer fire. Once typing has started the text is typed in
        full and finishLoading runs exactly once, FinishTime(|target|) ms
        after initPreloader; with nothing scheduled nothing ever happens. */
    method RunToFinish()
      requires Valid()
      modifies this`text, this`charIndex, this`pending, this`clock, this`finished, this`finishCalls
      ensures Valid() && pending == Idle
      ensures old(pending) != Idle || old(finished) ==>
        && finished && text == initial + target && clock == FinishTime(|target|) && finishCalls == 1
      ensures old(pending) == Idle && !old(finished) ==>
        && text == initial && charIndex == 0 && clock == 0 && !finished && finishCalls == 0
    {
      ghost var started := pending != Idle || finished;
      while pending != Idle
        invariant Valid()
        invariant started <==> pending != Idle || finished
        decreases Remaining()
      {
        Fire();
      }
      assert target[..|target|] == target;
    }
  }
}
