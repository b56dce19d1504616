// The chat start page's action buttons: six actions, each with suggestion
// options, shown in an order shuffled once per mount (Fisher-Yates over a
// copy of the list); clicking an action toggles it as the selection, and
// choosing a suggestion forwards its message and analytics labels.
// `Math.random` is a supplied sequence of draws in [0, 1).
module ActionButtons {
  import opened Wrappers

  datatype ActionOption = ActionOption(title: string, highlight: string, message: string,
                                       analyticsCategory: string, analyticsSubCategory: string)

  /** An action; `isProduction` is absent on all of them, which the button reads as false. */
  datatype Action = Action(title: string, options: seq<ActionOption>, isProduction: bool)

  const MusicStudio: Action := Action("Music Studio", [
    ActionOption("Song", "Producer", "Help me produce my song", "Music Studio", "Production"),
    ActionOption("Stem", "Separator", "Help me separate stems from my audio", "Music Studio", "Stem Separation"),
    ActionOption("Recording", "Quantizer", "Help me quantize my recording", "Music Studio", "Quantization"),
    ActionOption("Song", "Mixer", "Help me mix my song", "Music Studio", "Mixing"),
    ActionOption("Lyrics", "Writer", "Help me write lyrics", "Music Studio", "Lyrics"),
    ActionOption("Song", "Composer", "Help me compose my lyrics", "Music Studio", "Compose")
  ], false)

  const KnowledgeHub: Action := Action("Knowledge Hub", [
    ActionOption("Music", "Theory", "Share your knowledge about music theory concepts that will enhance my compositions.",
                 "Knowledge Hub", "Music Theory"),
    ActionOption("Production", "Techniques", "Teach me professional production techniques to elevate my sound quality.",
                 "Knowledge Hub", "Production Techniques"),
    ActionOption("DAW", "Ninja", "Help me master DAW workflows and shortcuts to dramatically speed up my process.",
                 "Knowledge Hub", "DAW"),
    ActionOption("Industry", "Insights", "Explain current music industry trends and strategies for independent artists.",
                 "Knowledge Hub", "Industry Insights")
  ], false)

  const ReleaseCommand: Action := Action("Release Command", [
    ActionOption("Plan", "Builder", "Create a comprehensive step-by-step release plan for my upcoming song release.",
                 "Release Command", "Plan Builder"),
    ActionOption("Pitch", "Generator",
                 "Generate effective playlist and blog pitch templates for my song that i can send the DSPs.",
                 "Release Command", "Pitch Generator"),
    ActionOption("Campaign", "Planner", "Design a multi-platform social media campaign strategy for my release.",
                 "Release Command", "Campaign Planner"),
    ActionOption("Analytics", "Guide", "Help me interpret my streaming data and leverage insights for growth.",
                 "Release Command", "Analytics Guide")
  ], false)

  const BusinessToolbox: Action := Action("Business Toolbox", [
    ActionOption("Contract", "Review", "Explain the key points I should understand in this music agreement.",
                 "Business Toolbox", "Contract Review"),
    ActionOption("Royalty", "Guide", "Break down how royalties work for streaming, sync, and performance.",
                 "Business Toolbox", "Royalty Guide"),
    ActionOption("Budget", "Planner", "Create a realistic music project budget with cost-saving strategies.",
                 "Business Toolbox", "Budget Planner"),
    ActionOption("Revenue", "Optimizer", "Identify untapped revenue streams for my music catalog.",
                 "Business Toolbox", "Revenue Optimizer")
  ], false)

  const CreativeLab: Action := Action("Creative Lab", [
    ActionOption("Reference", "Finder", "Help me identify reference tracks that match my creative vision.",
                 "Creative Lab", "Reference Finder"),
    ActionOption("Mood", "Generator", "Develop a mood board and sonic palette for my next production.",
                 "Creative Lab", "Mood Generator"),
    ActionOption("Block", "Breaker", "Provide creative exercises to overcome my current creative block.",
                 "Creative Lab", "Block Breaker"),
    ActionOption("Trend", "Analyzer", "Analyze current production trends in my genre without compromising originality.",
                 "Creative Lab", "Trend Analyzer")
  ], false)

  const CareerGrowth: Action := Action("Career Growth", [
    ActionOption("Audience", "Analysis", "Analyze potential target audiences and engagement strategies for my music.",
                 "Career Growth", "Audience Analysis"),
    ActionOption("Career", "Planning", "Develop a strategic 1-year career growth plan based on my current position.",
                 "Career Growth", "Career Planning"),
    ActionOption("Skill", "Roadmap", "Create a personalized skill development plan to reach my music goals.",
                 "Career Growth", "Skill Development"),
    ActionOption("Brand", "Building", "Guide me in creating a consistent and authentic artist brand identity.",
                 "Career Growth", "Brand Building")
  ], false)

  /** The actions in their written order, before the shuffle. */
  const ActionsData: seq<Action> := [MusicStudio, KnowledgeHub, ReleaseCommand, BusinessToolbox, CreativeLab, CareerGrowth]

  /** Every option of the action is labelled with the action's title. */
  predicate Labelled(a: Action)
  {
    forall k :: 0 <= k < |a.options| ==> a.options[k].analyticsCategory == a.title
  }

  predicate CategoriesMatch(actions: seq<Action>)
  {
    forall i :: 0 <= i < |actions| ==> Labelled(actions[i])
  }

  predicate DistinctTitles(actions: seq<Action>)
  {
    forall i, j :: 0 <= i < j < |actions| ==> actions[i].title != actions[j].title
  }

  // Proof steps for `ActionsDataShape`, split off to keep each obligation small.
  lemma FirstActionsLabelled()
    ensures Labelled(MusicStudio) && Labelled(KnowledgeHub) && Labelled(ReleaseCommand)
  {
  }

  lemma LastActionsLabelled()
    ensures Labelled(BusinessToolbox) && Labelled(CreativeLab) && Labelled(CareerGrowth)
  {
  }

  /** Six actions with distinct titles, none a production action, each option labelled with its action's title. */
  lemma ActionsDataShape()
    ensures |ActionsData| == 6
    ensures CategoriesMatch(ActionsData)
    ensures DistinctTitles(ActionsData)
    ensures forall i :: 0 <= i < |ActionsData| ==> !ActionsData[i].isProduction
  {
    FirstActionsLabelled();
    LastActionsLabelled();
  }

  // ---------------------------------------------------------------- shuffle

  /** A source of `Math.random()` draws: the k-th draw lies in [0, 1). */
  ghost predicate Draws(rand: nat -> real)
  {
    forall k: nat :: 0.0 <= rand(k) < 1.0
  }

  /** `Math.floor(x * (i + 1))`: for a draw in [0, 1), an index in [0, i]. */
  function SwapPartner(i: nat, x: real): (j: nat)
    requires 0.0 <= x < 1.0
    ensures j <= i
  {
    var v := x * (i + 1) as real;
    ScaledDrawBelow(x, (i + 1) as real);
    v.Floor as nat
  }

  lemma ScaledDrawBelow(x: real, n: real)
    requires 0.0 <= x < 1.0 && n > 0.0
    ensures 0.0 <= x * n < n
  {
    assert n - x * n == (1.0 - x) * n;
    assert (1.0 - x) * n > 0.0;
  }

  /** `[s[i], s[j]] = [s[j], s[i]]` on a sequence. */
  function Swap<T>(s: seq<T>, i: nat, j: nat): (r: seq<T>)
    requires i < |s| && j < |s|
    ensures |r| == |s|
  {
    s[i := s[j]][j := s[i]]
  }

  /** The swap exchanges positions i and j and keeps every other position. */
  lemma SwapSpec<T>(s: seq<T>, i: nat, j: nat)
    requires i < |s| && j < |s|
    ensures Swap(s, i, j)[i] == s[j] && Swap(s, i, j)[j] == s[i]
    ensures forall k :: 0 <= k < |s| && k != i && k != j ==> Swap(s, i, j)[k] == s[k]
  {
  }

  /**
   * The rest of the shuffle from position i down to 1, where `drawn` draws
   * have been used so far: swap position i with its partner, then go on with i - 1.
   */
  function ShuffleFrom<T>(s: seq<T>, i: nat, drawn: nat, rand: nat -> real): (r: seq<T>)
    requires Draws(rand) && i < |s|
    ensures |r| == |s|
    decreases i
  {
    if i == 0 then s
    else ShuffleFrom(Swap(s, i, SwapPartner(i, rand(drawn))), i - 1, drawn + 1, rand)
  }

  /** The Fisher-Yates shuffle of the whole sequence. */
  function Shuffled<T>(s: seq<T>, rand: nat -> real): (r: seq<T>)
    requires Draws(rand)
    ensures |r| == |s|
  {
    if |s| == 0 then s else ShuffleFrom(s, |s| - 1, 0, rand)
  }

  lemma {:induction false} ShuffleFromPermutes<T>(s: seq<T>, i: nat, drawn: nat, rand: nat -> real)
    requires Draws(rand) && i < |s|
    ensures multiset(ShuffleFrom(s, i, drawn, rand)) == multiset(s)
    decreases i
  {
    if i > 0 {
      ShuffleFromPermutes(Swap(s, i, SwapPartner(i, rand(drawn))), i - 1, drawn + 1, rand);
    }
  }

  /** The shuffle is a permutation: every element kept, with its multiplicity. */
  lemma ShuffledPermutes<T>(s: seq<T>, rand: nat -> real)
    requires Draws(rand)
    ensures multiset(Shuffled(s, rand)) == multiset(s)
    ensures forall x :: x in Shuffled(s, rand) <==> x in s
  {
    if |s| > 0 {
      ShuffleFromPermutes(s, |s| - 1, 0, rand);
    }
    var r := Shuffled(s, rand);
    forall x ensures x in r <==> x in s {
      assert x in r <==> x in multiset(r);
      assert x in s <==> x in multiset(s);
    }
  }

  /**
   * `shuffleArray`: shuffle a copy of the array in place; the input is left
   * alone. The result is `Shuffled` of the input, a permutation by `ShuffledPermutes`.
   */
  method ShuffleArray<T(0)>(input: array<T>, rand: nat -> real) returns (shuffled: array<T>)
    requires Draws(rand)
    ensures fresh(shuffled)
    ensures shuffled[..] == Shuffled(input[..], rand)
  {
    shuffled := new T[input.Length];
    forall k | 0 <= k < input.Length {
      shuffled[k] := input[k];
    }
    assert shuffled[..] == input[..];
    SwapDownwards(shuffled, rand);
  }

  /** The loop of `shuffleArray`: from the last index down to 1, swap with a drawn partner. */
  method SwapDownwards<T>(a: array<T>, rand: nat -> real)
    requires Draws(rand)
    modifies a
    ensures a[..] == Shuffled(old(a[..]), rand)
  {
    if a.Length == 0 {
      return;
    }
    SwapLoop(a, rand);
  }

  /** The loop itself, on a non-empty array: the drawn swaps from the last index down. */
  method SwapLoop<T>(a: array<T>, rand: nat -> real)
    requires Draws(rand) && a.Length > 0
    modifies a
    ensures a[..] == ShuffleFrom(old(a[..]), a.Length - 1, 0, rand)
  {
    ghost var target := ShuffleFrom(a[..], a.Length - 1, 0, rand);
    var i := a.Length - 1;
    while i > 0
      invariant 0 <= i < a.Length
      invariant ShuffleFrom(a[..], i, a.Length - 1 - i, rand) == target
      decreases i
    {
      SwapStep(a, i, rand);
      i := i - 1;
    }
  }

  /** One turn of the loop: swap index i with the partner the next draw picks. */
  method SwapStep<T>(a: array<T>, i: nat, rand: nat -> real)
    requires Draws(rand) && 0 < i < a.Length
    modifies a
    ensures ShuffleFrom(a[..], i - 1, a.Length - i, rand) == ShuffleFrom(old(a[..]), i, a.Length - 1 - i, rand)
  {
    ShuffleFromStep(a[..], i, a.Length - 1 - i, rand);
    var j := SwapPartner(i, rand(a.Length - 1 - i));
    SwapElements(a, i, j);
  }

  lemma ShuffleFromStep<T>(s: seq<T>, i: nat, drawn: nat, rand: nat -> real)
    requires Draws(rand) && 0 < i < |s|
    ensures ShuffleFrom(s, i, drawn, rand) == ShuffleFrom(Swap(s, i, SwapPartner(i, rand(drawn))), i - 1, drawn + 1, rand)
  {
  }

  /** `[shuffled[i], shuffled[j]] = [shuffled[j], shuffled[i]]`. */
  method SwapElements<T>(a: array<T>, i: nat, j: nat)
    requires i < a.Length && j < a.Length
    modifies a
    ensures a[..] == Swap(old(a[..]), i, j)
  {
    a[i], a[j] := a[j], a[i];
  }

  // ---------------------------------------------------------------- selection

  /** `toggleSelectedAction`: clicking the selected action (by title) deselects it; any other becomes the selection. */
  function Toggle(selected: Option<Action>, action: Action): (r: Option<Action>)
    ensures selected.Some? && selected.value.title == action.title ==> r.None?
    ensures !(selected.Some? && selected.value.title == action.title) ==> r == Some(action)
  {
    if selected.Some? && selected.value.title == action.title then None else Some(action)
  }

  /** A button is disabled while some other action is selected, unless it is a production action. */
  predicate Disabled(selected: Option<Action>, action: Action)
  {
    (selected.None? || selected.value.title != action.title) && selected.Some? && !action.isProduction
  }

  lemma DisabledIff(selected: Option<Action>, action: Action)
    ensures Disabled(selected, action) <==>
      selected.Some? && selected.value.title != action.title && !action.isProduction
    ensures selected.None? ==> !Disabled(selected, action)
  {
  }

  /** Toggling the same action twice from no selection ends with no selection. */
  lemma ToggleTwice(action: Action)
    ensures Toggle(Toggle(None, action), action).None?
  {
  }

  /** What a chosen suggestion forwards: its message, category and subcategory. */
  datatype ButtonChat = ButtonChat(message: string, analyticsCategory: string, analyticsSubCategory: string)

  /** The buttons' selection and the chats they have started. */
  class ActionButtonsState {
    var selected: Option<Action>
    var chats: seq<ButtonChat>

    constructor ()
      ensures selected.None? && chats == []
    {
      selected := None;
      chats := [];
    }

    method ToggleSelectedAction(action: Action)
      modifies this
      ensures selected == Toggle(old(selected), action) && chats == old(chats)
    {
      if selected.Some? && selected.value.title == action.title {
        selected := None;
      } else {
        selected := Some(action);
      }
    }

    /** A click outside clears the selection. */
    method ClickOutside()
      modifies this
      ensures selected.None? && chats == old(chats)
    {
      selected := None;
    }

    /**
     * The suggestions menu's `onSelect`, shown only while an action is
     * selected: toggle the selected action (which deselects it) and forward
     * the option's message and labels.
     */
    method SelectSuggestion(option: ActionOption)
      requires selected.Some?
      modifies this
      ensures selected.None?
      ensures chats == old(chats) + [ButtonChat(option.message, option.analyticsCategory, option.analyticsSubCategory)]
    {
      ToggleSelectedAction(selected.value);
      chats := chats + [ButtonChat(option.message, option.analyticsCategory, option.analyticsSubCategory)];
    }
  }
}
