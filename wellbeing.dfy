/** The wellbeing page: the prompt of the day, the box-breathing pacer and the grounding steps. */
module Wellbeing {
  import opened Text

  const JournalPrompts: seq<string> := [
    "What is one small win from today that felt bigger than it looked?",
    "How did you practice self-kindness during a difficult moment this week?",
    "What is a boundary you successfully maintained lately, and how did it feel?",
    "What are three things in your physical environment that bring you peace?",
    "Describe a moment today when you felt fully present in your body.",
    "If you could remove one recurring stressor from your life, what would it be?",
    "What does 'rest' look like to you when you aren't just sleeping?",
    "Write about a person who makes you feel safe and why.",
    "What is one thing you are looking forward to in the next 48 hours?",
    "How has your definition of 'success' changed in the last year?",
    "What is a piece of advice you’d give to your younger self about stress?",
    "Describe your perfect 'no-tech' afternoon."
  ]

  /**
   * `(today.getDate() + today.getMonth()) % JOURNAL_PROMPTS.length`: `getDate` is
   * the day of the month, 1 to 31, and `getMonth` the month, 0 to 11.
   */
  function PromptIndex(date: int, month: int): (i: nat)
    requires 1 <= date <= 31 && 0 <= month <= 11
    ensures i < |JournalPrompts|
    ensures (i - date - month) % |JournalPrompts| == 0
  {
    (date + month) % |JournalPrompts|
  }

  /** The prompt of the day: a member of the list, fixed by the calendar date alone. */
  function DailyPrompt(date: int, month: int): (p: string)
    requires 1 <= date <= 31 && 0 <= month <= 11
    ensures p in JournalPrompts
  {
    JournalPrompts[PromptIndex(date, month)]
  }

  /** From one day to the next within a month the prompt moves one place along the list, wrapping round. */
  lemma NextDayNextPrompt(date: int, month: int)
    requires 1 <= date < 31 && 0 <= month <= 11
    ensures PromptIndex(date + 1, month) == (PromptIndex(date, month) + 1) % |JournalPrompts|
  {
    var a := date + month;
    assert |JournalPrompts| == 12;
    var q := a / 12;
    assert 0 <= q <= 3 && a == 12 * q + a % 12;
    assert a + 1 == 12 * q + (a % 12 + 1);
    if a % 12 == 11 {
      assert a + 1 == 12 * (q + 1);
    }
  }

  datatype Phase = In | Hold | Out

  /** What one 4000 ms timeout does to the phase while the pacer runs. */
  function NextPhase(p: Phase): Phase {
    match p
    case In => Hold
    case Hold => Out
    case Out => In
  }

  const PhaseMs: nat := 4000

  /** The cycle, in order. */
  const Cycle: seq<Phase> := [In, Hold, Out]

  /** The phase after `steps` timeouts from `start`. */
  function PhaseAfter(start: Phase, steps: nat): Phase {
    if steps == 0 then start else NextPhase(PhaseAfter(start, steps - 1))
  }

  function CycleIndex(p: Phase): (i: nat)
    ensures i < |Cycle| && Cycle[i] == p
  {
    match p
    case In => 0
    case Hold => 1
    case Out => 2
  }

  /** Each timeout moves one place along In, Hold, Out and wraps round: no phase is skipped. */
  lemma NextPhaseFollowsCycle(p: Phase)
    ensures NextPhase(p) == Cycle[(CycleIndex(p) + 1) % |Cycle|]
  {
  }

  /** After `n` timeouts from any phase the pacer is `n` places further along the cycle. */
  lemma {:induction false} PhaseAfterCycle(start: Phase, n: nat)
    ensures PhaseAfter(start, n) == Cycle[(CycleIndex(start) + n) % |Cycle|]
  {
    if n > 0 {
      PhaseAfterCycle(start, n - 1);
      var k := (CycleIndex(start) + n - 1) % |Cycle|;
      NextPhaseFollowsCycle(Cycle[k]);
      assert (k + 1) % 3 == (CycleIndex(start) + n) % 3;
    }
  }

  /** Three timeouts bring every phase back to itself. */
  lemma ThreeStepsReturn(p: Phase)
    ensures PhaseAfter(p, 3) == p
  {
    PhaseAfterCycle(p, 3);
  }

  /** The phase shown `elapsedMs` after the session starts: one place along the cycle every 4000 ms. */
  lemma PhaseAtTime(elapsedMs: nat)
    ensures PhaseAfter(In, elapsedMs / PhaseMs) == Cycle[(elapsedMs / PhaseMs) % |Cycle|]
  {
    PhaseAfterCycle(In, elapsedMs / PhaseMs);
  }

  function PhaseName(p: Phase): string {
    match p
    case In => "In"
    case Hold => "Hold"
    case Out => "Out"
  }

  /** The pacer's state. */
  class Pacer {
    var isBreathing: bool
    var breathPhase: Phase

    constructor ()
      ensures !isBreathing && breathPhase == In
    {
      isBreathing, breathPhase := false, In;
    }

    /** The pacer's caption: the phase while running, otherwise "Start". */
    function Caption(): (s: string)
      reads this
      ensures isBreathing ==> s == PhaseName(breathPhase)
      ensures !isBreathing ==> s == "Start"
    {
      if isBreathing then PhaseName(breathPhase) else "Start"
    }

    /** The Begin/End button; starting runs the cycle from In, stopping resets the phase to In. */
    method ToggleBreathing()
      modifies this
      ensures isBreathing == !old(isBreathing) && breathPhase == In
    {
      isBreathing := !isBreathing;
      breathPhase := In;
    }

    /** A 4000 ms timeout firing; timeouts are cleared when the session stops. */
    method PhaseTimeout()
      requires isBreathing
      modifies this`breathPhase
      ensures breathPhase == NextPhase(old(breathPhase))
    {
      breathPhase := match breathPhase
        case In => Hold
        case Hold => Out
        case Out => In;
    }
  }

  const GroundingSteps: seq<string> :=
    ["5 things you SEE", "4 things you FEEL", "3 things you HEAR", "2 things you SMELL", "1 thing you TASTE"]

  /** `step.split(' ').slice(2).join(' ')`. */
  function GroundingLabel(step: string): string {
    var words := Split(' ', step);
    Join(" ", if |words| < 2 then [] else words[2..])
  }

  /** The label drops exactly the first two space-separated words. */
  lemma DropsTwoWords(a: string, b: string, rest: string)
    requires ' ' !in a && ' ' !in b
    ensures GroundingLabel(a + " " + b + " " + rest) == rest
  {
    assert a + " " + b + " " + rest == a + [' '] + (b + [' '] + rest);
    SplitPiece(' ', a, b + [' '] + rest);
    SplitPiece(' ', b, rest);
    var words := Split(' ', a + " " + b + " " + rest);
    assert words == [a] + ([b] + Split(' ', rest));
    assert words[2..] == Split(' ', rest);
    JoinSplit(' ', rest);
  }

  /** The label of a grounding step, as shown: "5 things you SEE" becomes "you SEE". */
  lemma GroundingLabelShown(k: nat)
    requires k < |GroundingSteps|
    ensures GroundingLabel(GroundingSteps[k]) == ["you SEE", "you FEEL", "you HEAR", "you SMELL", "you TASTE"][k]
  {
    var counts := ["5", "4", "3", "2", "1"];
    var nouns := ["things", "things", "things", "things", "thing"];
    var senses := ["you SEE", "you FEEL", "you HEAR", "you SMELL", "you TASTE"];
    assert GroundingSteps[k] == counts[k] + " " + nouns[k] + " " + senses[k];
    DropsTwoWords(counts[k], nouns[k], senses[k]);
  }
}
