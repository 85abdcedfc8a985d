/** The loading splash: a rotating plant fact and a typewriter that spells
    the app's name, after which control passes to the app. Each timer firing
    is a step method; a step can only be taken while its timer is armed. */
module Loading {

  /** The label the typewriter reveals. */
  const Name := "Sproutly"

  const PlantFacts: seq<string> := [
    "Over 80% of the world's plant species are flowering plants.",
    "Some plants can live for thousands of years, like the Bristlecone Pine.",
    "Plants communicate through chemical signals in the air and soil.",
    "Leaves contain chlorophyll, essential for photosynthesis and plant food.",
    "The tallest tree ever recorded was a redwood over 379 feet tall!"
  ]

  /** Timer delays in milliseconds. */
  const FactInterval := 4000
  const NameDelay := 3000
  const LetterDelay := 150
  const FinishDelay := 1500

  /** The one-shot timeout pending in the name sequence. */
  datatype Timer =
    | NameTimer    // shows the name 3 s after mount
    | LetterTimer  // types the next letter
    | FinishTimer  // calls `onFinish` once the name is complete
    | NoTimer      // `onFinish` has been called and the screen is gone

  /** The earliest moment (ms after mount) at which the typewriter can show
      `letters` letters. */
  function TypedAt(letters: nat): nat {
    NameDelay + LetterDelay * letters
  }

  class LoadingScreen {
    var factIndex: nat
    var nameVisible: bool
    var typedText: string
    var letterIndex: nat
    var finished: bool

    /** Scheduled time of the latest step of the name sequence, in ms after
        mount; timers may fire late but never early. */
    ghost var elapsed: nat
    /** How many times the fact interval has fired. */
    ghost var factTicks: nat

    /** The typed text is always the first `letterIndex` letters of the
        name; nothing is typed before the name is shown; `onFinish` has been
        called only with the whole name typed, and never before the fixed
        minimum time. */
    ghost predicate Valid()
      reads this
    {
      && factIndex == factTicks % |PlantFacts|
      && letterIndex <= |Name| && typedText == Name[..letterIndex]
      && (!nameVisible ==> letterIndex == 0 && elapsed == 0 && !finished)
      && (nameVisible && !finished ==> elapsed == TypedAt(letterIndex))
      && (finished ==> nameVisible && letterIndex == |Name| && elapsed == TypedAt(|Name|) + FinishDelay)
    }

    /** Which timeout of the name sequence is armed: the typewriter effect
        schedules a letter while letters remain and the finish delay once
        they are all typed. */
    function ArmedTimer(): (t: Timer)
      reads this
    {
      if finished then NoTimer
      else if !nameVisible then NameTimer
      else if letterIndex < |Name| then LetterTimer
      else FinishTimer
    }

    constructor ()
      ensures Valid()
      ensures factIndex == 0 && !nameVisible && typedText == "" && letterIndex == 0 && !finished
      ensures ArmedTimer() == NameTimer
    {
      factIndex := 0;
      nameVisible := false;
      typedText := "";
      letterIndex := 0;
      finished := false;
      elapsed := 0;
      factTicks := 0;
    }

    /** The fact interval fires: the next fact, wrapping after the fifth. */
    method FactTick()
      requires Valid() && !finished
      modifies this`factIndex, this`factTicks
      ensures Valid()
      ensures factIndex < |PlantFacts|
      ensures factIndex == (old(factIndex) + 1) % |PlantFacts|
    {
      factIndex := (factIndex + 1) % |PlantFacts|;
      factTicks := factTicks + 1;
    }

    /** The 3 s timeout fires: the name becomes visible. */
    method ShowName()
      requires Valid() && ArmedTimer() == NameTimer
      modifies this`nameVisible, this`elapsed
      ensures Valid() && nameVisible
      ensures ArmedTimer() == LetterTimer
    {
      nameVisible := true;
      elapsed := NameDelay;
    }

    /** A letter timeout fires: one more letter of the name is typed. */
    method TypeLetter()
      requires Valid() && ArmedTimer() == LetterTimer
      modifies this`typedText, this`letterIndex, this`elapsed
      ensures Valid()
      ensures letterIndex == old(letterIndex) + 1
      ensures typedText == old(typedText) + [Name[old(letterIndex)]]
      ensures ArmedTimer() == if letterIndex < |Name| then LetterTimer else FinishTimer
    {
      typedText := typedText + [Name[letterIndex]];
      letterIndex := letterIndex + 1;
      elapsed := elapsed + LetterDelay;
    }

    /** The finish timeout fires: `onFinish` is called, with the whole name
        typed and no sooner than 5.7 s after mount; no timer is left. */
    method Finish()
      requires Valid() && ArmedTimer() == FinishTimer
      modifies this`finished, this`elapsed
      ensures Valid() && finished
      ensures typedText == Name && elapsed == NameDelay + LetterDelay * |Name| + FinishDelay
      ensures ArmedTimer() == NoTimer
    {
      finished := true;
      elapsed := elapsed + FinishDelay;
    }
  }

  /** The whole sequence from mount: the name after 3 s, eight letters 150
      ms apart, then `onFinish` 1.5 s later, 5700 ms in all. */
  method RunToFinish() returns (screen: LoadingScreen)
    ensures screen.finished && screen.typedText == "Sproutly" && screen.elapsed == 5700
  {
    screen := new LoadingScreen();
    screen.ShowName();
    while screen.ArmedTimer() == LetterTimer
      invariant screen.Valid() && screen.nameVisible && !screen.finished
      decreases |Name| - screen.letterIndex
    {
      screen.TypeLetter();
    }
    screen.Finish();
  }
}
