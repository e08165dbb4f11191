/**
 * The typewriter text cycler of the landing page's hero section.
 *
 * Three state cells -- the displayed text, the index of the current word and
 * the deleting flag -- are rewritten one step at a time. Each run of the
 * component's effect looks at the cells and either schedules one timer whose
 * callback performs the step, or (when a word has been fully deleted) performs
 * the step at once. The pure functions below say what one step does; the
 * class Typewriter is the component, with its timer.
 */
module Typewriter {

  import opened Options

  /** The component's props. Speeds and the pause are timer delays in milliseconds. */
  datatype Config = Config(words: seq<string>, typingSpeed: nat, deletingSpeed: nat, delayBetweenWords: nat)

  /** Default props of the component. */
  function DefaultConfig(words: seq<string>): (c: Config)
    ensures c.words == words
    ensures c.typingSpeed == 50 && c.deletingSpeed == 30 && c.delayBetweenWords == 2000
  {
    Config(words, 50, 30, 2000)
  }

  /** The three state cells. */
  datatype State = State(text: string, index: nat, deleting: bool)

  /** The four things one step can do. */
  datatype Step = TypeChar | StartDeleting | DeleteChar | NextWord

  /** A pending timer: the step its callback performs and its delay. */
  datatype Timeout = Timeout(step: Step, delay: nat)

  /** The state invariant: a valid index, and the text is a prefix of the current word. */
  predicate Inv(words: seq<string>, s: State) {
    s.index < |words| && s.text <= words[s.index]
  }

  /** Which branch the effect takes in state s. */
  function Choose(words: seq<string>, s: State): (step: Step)
    requires s.index < |words|
    ensures step == TypeChar <==> !s.deleting && |s.text| < |words[s.index]|
    ensures step == StartDeleting <==> !s.deleting && |s.text| >= |words[s.index]|
    ensures step == DeleteChar <==> s.deleting && |s.text| > 0
    ensures step == NextWord <==> s.deleting && |s.text| == 0
  {
    if !s.deleting then
      if |s.text| < |words[s.index]| then TypeChar else StartDeleting
    else
      if |s.text| > 0 then DeleteChar else NextWord
  }

  /** The timer the effect schedules for a step; None when the step is performed at once. */
  function DelayOf(c: Config, step: Step): (d: Option<nat>)
    ensures d.None? <==> step == NextWord
  {
    match step
    case TypeChar => Some(c.typingSpeed)
    case StartDeleting => Some(c.delayBetweenWords)
    case DeleteChar => Some(c.deletingSpeed)
    case NextWord => None
  }

  /** What performing a step does to the state cells. */
  function Apply(words: seq<string>, s: State, step: Step): (r: State)
    requires Inv(words, s) && step == Choose(words, s)
    ensures Inv(words, r)
  {
    match step
    case TypeChar => State(words[s.index][..|s.text| + 1], s.index, s.deleting)
    case StartDeleting => State(s.text, s.index, true)
    case DeleteChar => State(s.text[..|s.text| - 1], s.index, s.deleting)
    case NextWord => State(s.text, (s.index + 1) % |words|, false)
  }

  /** One tick of the cycler: the step chosen in s, performed. */
  function Next(words: seq<string>, s: State): (r: State)
    requires Inv(words, s)
    ensures Inv(words, r)
  {
    Apply(words, s, Choose(words, s))
  }

  /** k ticks in a row. */
  function Run(words: seq<string>, s: State, k: nat): (r: State)
    requires Inv(words, s)
    ensures Inv(words, r)
    decreases k
  {
    if k == 0 then s else Run(words, Next(words, s), k - 1)
  }

  /** Typing: one more character of the current word; the flag and index stay. */
  lemma TypingTick(c: Config, s: State)
    requires Inv(c.words, s) && !s.deleting && |s.text| < |c.words[s.index]|
    ensures var r := Next(c.words, s);
      && |r.text| == |s.text| + 1 && r.text <= c.words[s.index] && s.text <= r.text
      && r.index == s.index && !r.deleting
    ensures DelayOf(c, Choose(c.words, s)) == Some(c.typingSpeed)
  {
  }

  /** A fully typed word: after the pause the cycler starts deleting; text and index stay. */
  lemma PauseTick(c: Config, s: State)
    requires Inv(c.words, s) && !s.deleting && s.text == c.words[s.index]
    ensures Next(c.words, s) == State(s.text, s.index, true)
    ensures DelayOf(c, Choose(c.words, s)) == Some(c.delayBetweenWords)
  {
  }

  /** Deleting: exactly the last character is removed; the flag and index stay. */
  lemma DeletingTick(c: Config, s: State)
    requires Inv(c.words, s) && s.deleting && |s.text| > 0
    ensures var r := Next(c.words, s);
      && r.text + [s.text[|s.text| - 1]] == s.text
      && r.index == s.index && r.deleting
    ensures DelayOf(c, Choose(c.words, s)) == Some(c.deletingSpeed)
  {
    var r := Next(c.words, s);
    assert r.text == s.text[..|s.text| - 1];
    assert r.text + [s.text[|s.text| - 1]] == s.text;
  }

  /** A fully deleted word: move to the next word (wrapping) at once, typing again. */
  lemma WrapTick(c: Config, s: State)
    requires Inv(c.words, s) && s.deleting && s.text == ""
    ensures Next(c.words, s) == State("", (s.index + 1) % |c.words|, false)
    ensures DelayOf(c, Choose(c.words, s)) == None
  {
  }

  /** Typing from any prefix of the current word reaches the whole word. */
  lemma {:induction false} TypingPhase(words: seq<string>, s: State)
    requires Inv(words, s) && !s.deleting
    ensures Run(words, s, |words[s.index]| - |s.text|) == State(words[s.index], s.index, false)
    decreases |words[s.index]| - |s.text|
  {
    var w := words[s.index];
    if |s.text| == |w| {
      assert s.text == w;
    } else {
      var t := Next(words, s);
      assert t == State(w[..|s.text| + 1], s.index, false);
      TypingPhase(words, t);
      assert |w| - |s.text| == (|w| - |t.text|) + 1;
    }
  }

  /** Deleting from any prefix of the current word reaches the empty text. */
  lemma {:induction false} DeletingPhase(words: seq<string>, s: State)
    requires Inv(words, s) && s.deleting
    ensures Run(words, s, |s.text|) == State("", s.index, true)
    decreases |s.text|
  {
    if |s.text| > 0 {
      var t := Next(words, s);
      assert t == State(s.text[..|s.text| - 1], s.index, true);
      DeletingPhase(words, t);
    }
  }

  /** Run composes: i ticks then j ticks are i + j ticks. */
  lemma {:induction false} RunAdditive(words: seq<string>, s: State, i: nat, j: nat)
    requires Inv(words, s)
    ensures Run(words, Run(words, s, i), j) == Run(words, s, i + j)
    decreases i
  {
    if i > 0 {
      RunAdditive(words, Next(words, s), i - 1, j);
    }
  }

  /**
   * A full cycle: from an empty, typing state on word i, |w_i| typing ticks
   * show the whole word; one pause, |w_i| deleting ticks and one wrap later the
   * cycler is empty and typing on word (i + 1) mod n.
   */
  lemma FullCycle(words: seq<string>, i: nat)
    requires i < |words|
    ensures Run(words, State("", i, false), |words[i]|) == State(words[i], i, false)
    ensures Run(words, State("", i, false), 2 * |words[i]| + 2) == State("", (i + 1) % |words|, false)
  {
    var n := |words[i]|;
    var s0 := State("", i, false);
    TypingPhase(words, s0);
    var s1 := Run(words, s0, n);
    var s2 := Next(words, s1);
    assert s2 == State(words[i], i, true);
    assert Run(words, s1, 1) == s2 by {
      assert Run(words, s2, 0) == s2;
    }
    DeletingPhase(words, s2);
    var s3 := Run(words, s2, n);
    assert s3 == State("", i, true);
    var s4 := Next(words, s3);
    assert Run(words, s3, 1) == s4 by {
      assert Run(words, s4, 0) == s4;
    }
    RunAdditive(words, s0, n, 1);
    RunAdditive(words, s0, n + 1, n);
    RunAdditive(words, s0, 2 * n + 1, 1);
  }

  /**
   * The component. Its timer is the one pending setTimeout of the current
   * effect run, if any; the cleanup of each effect run clears it before the
   * next run.
   */
  class Typewriter {
    const config: Config
    var displayedText: string
    var currentWordIndex: nat
    var isDeleting: bool
    /** Timers of this instance that are scheduled and neither cleared nor fired. */
    var pending: seq<Timeout>
    /** Between mount and unmount. */
    var mounted: bool

    function Current(): State
      reads this
    {
      State(displayedText, currentWordIndex, isDeleting)
    }

    /** At most one timer is pending, it was scheduled for the current state, and none once unmounted. */
    ghost predicate Valid()
      reads this
    {
      && Inv(config.words, Current())
      && (!mounted ==> pending == [])
      && |pending| <= 1
      && (|pending| == 1 ==>
            pending[0].step == Choose(config.words, Current())
            && Some(pending[0].delay) == DelayOf(config, pending[0].step))
    }

    /** Mounting: empty text, first word, typing. The component indexes words[0], so the list is non-empty. */
    constructor (c: Config)
      requires |c.words| > 0
      ensures Valid() && config == c
      ensures Current() == State("", 0, false) && pending == [] && mounted
    {
      config := c;
      displayedText := "";
      currentWordIndex := 0;
      isDeleting := false;
      pending := [];
      mounted := true;
    }

    /**
     * One run of the effect: the cleanup of the previous run clears its timer,
     * then either one timer is scheduled for the chosen step, or the step to
     * the next word is taken at once.
     */
    method RunEffect()
      requires Valid() && mounted
      modifies this
      ensures Valid() && mounted
      ensures var step := Choose(config.words, old(Current()));
        match DelayOf(config, step)
        case Some(d) => Current() == old(Current()) && pending == [Timeout(step, d)]
        case None => Current() == Next(config.words, old(Current())) && pending == []
    {
      pending := [];
      var word := config.words[currentWordIndex];
      if !isDeleting {
        if |displayedText| < |word| {
          pending := [Timeout(TypeChar, config.typingSpeed)];
        } else {
          pending := [Timeout(StartDeleting, config.delayBetweenWords)];
        }
      } else {
        if |displayedText| > 0 {
          pending := [Timeout(DeleteChar, config.deletingSpeed)];
        } else {
          isDeleting := false;
          currentWordIndex := (currentWordIndex + 1) % |config.words|;
        }
      }
    }

    /** Unmount: the last effect run's cleanup clears its timer; no effect runs afterwards. */
    method Unmount()
      requires Valid()
      modifies this`pending, this`mounted
      ensures Valid() && pending == [] && !mounted
    {
      pending := [];
      mounted := false;
    }

    /** The pending timer fires: its callback performs the step it was scheduled for. */
    method FireTimeout()
      requires Valid() && |pending| == 1
      modifies this
      ensures Valid() && pending == [] && mounted == old(mounted)
      ensures Current() == Next(config.words, old(Current()))
    {
      var word := config.words[currentWordIndex];
      match pending[0].step {
        case TypeChar =>
          displayedText := word[..|displayedText| + 1];
        case StartDeleting =>
          isDeleting := true;
        case DeleteChar =>
          displayedText := displayedText[..|displayedText| - 1];
        case NextWord =>
          assert false;
      }
      pending := [];
    }

    /**
     * One tick: the effect runs and, if it scheduled a timer, that timer
     * fires. Returns the delay the tick waited, None for the immediate wrap.
     */
    method Tick() returns (delay: Option<nat>)
      requires Valid() && mounted && pending == []
      modifies this
      ensures Valid() && mounted && pending == []
      ensures Current() == Next(config.words, old(Current()))
      ensures delay == DelayOf(config, Choose(config.words, old(Current())))
    {
      delay := DelayOf(config, Choose(config.words, Current()));
      RunEffect();
      if |pending| == 1 {
        FireTimeout();
      }
    }
  }
}
