// `MessageFactory`: one message's fragments cut into render units. Every
// status-type fragment gets a status container of its own; each maximal run
// of the other fragments is wrapped in one bubble.
module MessageFactory {
  import opened Wrappers
  import opened ChatTypes
  import MessageProcessor
  import SeqUtil

  /** The kinds rendered as a status line instead of inside a bubble. */
  const StatusMessageTypes: seq<string> :=
    ["audio_upload_start", "audio_upload_complete", "reference_selection", "song_rendering_start",
     "quantization_start", "mixing_start", "stem_separation_start", "song_composition_start",
     "error", "audio_analysis_start"]

  /** `STATUS_MESSAGE_TYPES.includes(fragment.type)`, by constructor; `StatusByType` ties it to the list. */
  predicate IsStatus(f: Fragment)
  {
    var b := f.body;
    b.AudioUploadStart? || b.AudioUploadComplete? || b.ReferenceSelection? || b.SongRenderingStart?
    || b.QuantizationStart? || b.MixingStart? || b.StemSeparationStart? || b.SongCompositionStart?
    || b.Error? || b.AudioAnalysisStart?
  }

  lemma StatusByTypeEarly(f: Fragment)
    requires MessageProcessor.EarlyKind(f.body)
    ensures IsStatus(f) <==> Tag(f.body) in StatusMessageTypes
  {
    if f.body.Text? {
      assert Tag(f.body) == "text";
    } else if f.body.AudioUploadRequest? {
      assert Tag(f.body) == "audio_upload_request";
    } else if f.body.AudioAnalysisComplete? {
      assert Tag(f.body) == "audio_analysis_complete";
    } else if f.body.ReferenceCandidates? {
      assert Tag(f.body) == "reference_candidates";
    }
  }

  lemma StatusByTypeLate(f: Fragment)
    requires !MessageProcessor.EarlyKind(f.body)
    ensures IsStatus(f) <==> Tag(f.body) in StatusMessageTypes
  {
    if f.body.SongRenderingComplete? {
      assert Tag(f.body) == "song_rendering_complete";
    } else if f.body.QuantizationComplete? {
      assert Tag(f.body) == "quantization_complete";
    } else if f.body.MixingComplete? {
      assert Tag(f.body) == "mixing_complete";
    } else if f.body.StemSeparationComplete? {
      assert Tag(f.body) == "stem_separation_complete";
    } else if f.body.SongCompositionComplete? {
      assert Tag(f.body) == "song_composition_complete";
    } else if f.body.LyricsWriting? {
      assert Tag(f.body) == "lyrics_writing";
    } else if f.body.MusicalMatches? {
      assert Tag(f.body) == "musical_matches";
    }
  }

  /** A fragment gets a status container exactly when its type is one of `StatusMessageTypes`. */
  lemma StatusByType(f: Fragment)
    ensures IsStatus(f) <==> Tag(f.body) in StatusMessageTypes
  {
    if MessageProcessor.EarlyKind(f.body) {
      StatusByTypeEarly(f);
    } else {
      StatusByTypeLate(f);
    }
  }

  /** A fragment rendered under the React key of its position in the message. */
  datatype Rendered = Rendered(key: nat, fragment: Fragment)

  datatype Component =
    | Bubble(bubbleKey: nat, role: Role, items: seq<Rendered>)
    | StatusBox(statusKey: nat, isLoading: bool, item: Rendered)

  /** What a component renders, in order. */
  function Items(c: Component): seq<Rendered>
  {
    match c
    case Bubble(_, _, items) => items
    case StatusBox(_, _, item) => [item]
  }

  /** The rendered fragments of a component list, concatenated in output order. */
  function AllItems(cs: seq<Component>): seq<Rendered>
  {
    if cs == [] then [] else AllItems(cs[..|cs| - 1]) + Items(cs[|cs| - 1])
  }

  /** The number of bubbles among the components. */
  function BubbleCount(cs: seq<Component>): nat
  {
    if cs == [] then 0 else BubbleCount(cs[..|cs| - 1]) + (if cs[|cs| - 1].Bubble? then 1 else 0)
  }

  /** The fragments of a message, each under the key of its position. */
  function Keyed(fs: seq<Fragment>): (r: seq<Rendered>)
    ensures |r| == |fs| && forall i :: 0 <= i < |fs| ==> r[i] == Rendered(i, fs[i])
  {
    seq(|fs|, i requires 0 <= i < |fs| => Rendered(i, fs[i]))
  }

  /** `isLoading={fragment.done !== undefined && !fragment.done}`. */
  predicate Loading(f: Fragment)
  {
    f.done == Some(false)
  }

  /** A status container: one status-type fragment, keyed by its position, loading exactly when `done` is false. */
  predicate GoodStatus(c: Component)
    requires c.StatusBox?
  {
    IsStatus(c.item.fragment) && c.statusKey == c.item.key && c.isLoading == Loading(c.item.fragment)
  }

  /** A bubble: non-empty, in the message's role, holding only non-status fragments. */
  predicate GoodBubble(c: Component, role: Role)
    requires c.Bubble?
  {
    |c.items| > 0 && c.role == role && forall j :: 0 <= j < |c.items| ==> !IsStatus(c.items[j].fragment)
  }

  /**
   * The shape the segmentation promises, built container by container: each
   * container well formed, each bubble numbered by the bubbles before it and
   * never directly after another bubble (so each bubble is a whole run of
   * non-status fragments).
   */
  predicate Segmented(cs: seq<Component>, role: Role)
  {
    cs == [] ||
    var pre, c := cs[..|cs| - 1], cs[|cs| - 1];
    Segmented(pre, role)
    && (c.StatusBox? ==> GoodStatus(c))
    && (c.Bubble? ==> GoodBubble(c, role) && c.bubbleKey == BubbleCount(pre) && (pre != [] ==> !pre[|pre| - 1].Bubble?))
  }

  lemma AllItemsAppend(cs: seq<Component>, c: Component)
    ensures AllItems(cs + [c]) == AllItems(cs) + Items(c)
  {
    assert (cs + [c])[..|cs|] == cs;
  }

  lemma SegmentedAppend(cs: seq<Component>, c: Component, role: Role)
    requires Segmented(cs, role)
    requires c.StatusBox? ==> GoodStatus(c)
    requires c.Bubble? ==> GoodBubble(c, role) && c.bubbleKey == BubbleCount(cs) && (cs != [] ==> !cs[|cs| - 1].Bubble?)
    ensures Segmented(cs + [c], role) && BubbleCount(cs + [c]) == BubbleCount(cs) + (if c.Bubble? then 1 else 0)
  {
    assert (cs + [c])[..|cs|] == cs;
  }

  /**
   * What the shape means container by container: status containers are well
   * formed, bubbles are well formed and numbered 0, 1, ... in output order,
   * and no two bubbles are adjacent.
   */
  lemma {:induction false} SegmentedShape(cs: seq<Component>, role: Role)
    requires Segmented(cs, role)
    ensures forall k :: 0 <= k < |cs| && cs[k].StatusBox? ==> GoodStatus(cs[k])
    ensures forall k :: 0 <= k < |cs| && cs[k].Bubble? ==>
      GoodBubble(cs[k], role) && cs[k].bubbleKey == BubbleCount(cs[..k])
    ensures forall k :: 0 <= k < |cs| - 1 ==> !(cs[k].Bubble? && cs[k + 1].Bubble?)
  {
    if cs != [] {
      var pre := cs[..|cs| - 1];
      SegmentedShape(pre, role);
      forall k | 0 <= k < |pre|
        ensures cs[k] == pre[k] && cs[..k] == pre[..k]
      {
      }
      assert cs[..|cs| - 1] == pre;
    }
  }

  /**
   * What holds after the first `index` fragments: the containers so far plus
   * the open bubble buffer are those fragments in order; the buffer holds no
   * status fragment; the containers so far never end in a bubble (a bubble is
   * only closed by the status fragment that follows it).
   */
  predicate LoopState(fragments: seq<Fragment>, role: Role, index: nat, components: seq<Component>,
                      bubble: seq<Rendered>, currentBubbleIndex: nat)
  {
    index <= |fragments|
    && AllItems(components) + bubble == Keyed(fragments)[..index]
    && Segmented(components, role)
    && currentBubbleIndex == BubbleCount(components)
    && (forall j :: 0 <= j < |bubble| ==> !IsStatus(bubble[j].fragment))
    && (components != [] ==> !components[|components| - 1].Bubble?)
  }

  /** One turn of the `forEach`: a status fragment closes the open bubble and gets its own container; any other joins the bubble. */
  method SegmentStep(fragments: seq<Fragment>, role: Role, index: nat, components: seq<Component>,
                     bubble: seq<Rendered>, currentBubbleIndex: nat)
    returns (components': seq<Component>, bubble': seq<Rendered>, currentBubbleIndex': nat)
    requires index < |fragments|
    requires LoopState(fragments, role, index, components, bubble, currentBubbleIndex)
    ensures LoopState(fragments, role, index + 1, components', bubble', currentBubbleIndex')
  {
    if IsStatus(fragments[index]) {
      components', bubble', currentBubbleIndex' := StatusStep(fragments, role, index, components, bubble, currentBubbleIndex);
    } else {
      ghost var upTo := Keyed(fragments)[..index];
      var rendered := Rendered(index, fragments[index]);
      assert Keyed(fragments)[..index + 1] == upTo + [rendered];
      assert AllItems(components) + (bubble + [rendered]) == (AllItems(components) + bubble) + [rendered];
      components', bubble', currentBubbleIndex' := components, bubble + [rendered], currentBubbleIndex;
    }
  }

  /** A status fragment: the open bubble, if any, becomes a container, then the status gets its own. */
  method StatusStep(fragments: seq<Fragment>, role: Role, index: nat, components: seq<Component>,
                    bubble: seq<Rendered>, currentBubbleIndex: nat)
    returns (components': seq<Component>, bubble': seq<Rendered>, currentBubbleIndex': nat)
    requires index < |fragments| && IsStatus(fragments[index])
    requires LoopState(fragments, role, index, components, bubble, currentBubbleIndex)
    ensures LoopState(fragments, role, index + 1, components', bubble', currentBubbleIndex')
  {
    var rendered := Rendered(index, fragments[index]);
    ghost var upTo := Keyed(fragments)[..index];
    assert Keyed(fragments)[..index + 1] == upTo + [rendered];
    components', bubble', currentBubbleIndex' := components, bubble, currentBubbleIndex;
    if |bubble'| > 0 {
      components', bubble', currentBubbleIndex' := CloseBubble(role, components', bubble', currentBubbleIndex');
    }
    assert AllItems(components') == upTo;
    var s := StatusBox(index, Loading(fragments[index]), rendered);
    SegmentedAppend(components', s, role);
    AllItemsAppend(components', s);
    components' := components' + [s];
    assert AllItems(components') + bubble' == upTo + [rendered];
  }

  /** The open bubble becomes the next numbered bubble container, and a new bubble starts empty. */
  method CloseBubble(role: Role, components: seq<Component>, bubble: seq<Rendered>, currentBubbleIndex: nat)
    returns (components': seq<Component>, bubble': seq<Rendered>, currentBubbleIndex': nat)
    requires |bubble| > 0 && Segmented(components, role) && currentBubbleIndex == BubbleCount(components)
    requires forall j :: 0 <= j < |bubble| ==> !IsStatus(bubble[j].fragment)
    requires components != [] ==> !components[|components| - 1].Bubble?
    ensures components' == components + [Bubble(currentBubbleIndex, role, bubble)] && bubble' == []
    ensures AllItems(components') == AllItems(components) + bubble
    ensures Segmented(components', role) && currentBubbleIndex' == BubbleCount(components')
  {
    var c := Bubble(currentBubbleIndex, role, bubble);
    SegmentedAppend(components, c, role);
    AllItemsAppend(components, c);
    components' := components + [c];
    bubble' := [];
    currentBubbleIndex' := currentBubbleIndex + 1;
  }

  /**
   * The render loop of `MessageFactory`. The returned containers concatenate
   * back to the message's fragments, each under its positional key, and have
   * the promised shape.
   */
  method Segment(message: Message) returns (components: seq<Component>)
    ensures AllItems(components) == Keyed(message.content)
    ensures Segmented(components, message.role)
  {
    var fragments := message.content;
    var bubble: seq<Rendered> := [];
    components := [];
    var currentBubbleIndex: nat := 0;
    var index := 0;
    while index < |fragments|
      invariant LoopState(fragments, message.role, index, components, bubble, currentBubbleIndex)
    {
      components, bubble, currentBubbleIndex :=
        SegmentStep(fragments, message.role, index, components, bubble, currentBubbleIndex);
      index := index + 1;
    }
    assert Keyed(fragments)[..index] == Keyed(fragments);
    if |bubble| > 0 {
      var c := Bubble(currentBubbleIndex, message.role, bubble);
      SegmentedAppend(components, c, message.role);
      AllItemsAppend(components, c);
      components := components + [c];
    }
  }

  /** The length of the run of non-status fragments that ends a rendered sequence. */
  function TrailingRun(items: seq<Rendered>): nat
  {
    if items == [] || IsStatus(items[|items| - 1].fragment) then 0
    else TrailingRun(items[..|items| - 1]) + 1
  }

  lemma {:induction false} TrailingRunAppend(x: seq<Rendered>, y: seq<Rendered>)
    requires x != [] ==> IsStatus(x[|x| - 1].fragment)
    requires forall j :: 0 <= j < |y| ==> !IsStatus(y[j].fragment)
    ensures TrailingRun(x + y) == |y|
  {
    if y == [] {
      assert x + y == x;
    } else {
      var y' := y[..|y| - 1];
      assert (x + y)[..|x + y| - 1] == x + y';
      TrailingRunAppend(x, y');
    }
  }

  /** Every container renders at least one fragment, so only no containers render nothing. */
  lemma {:induction false} SegmentedNonEmpty(cs: seq<Component>, role: Role)
    requires Segmented(cs, role) && cs != []
    ensures AllItems(cs) != []
  {
  }

  /** The last bubble of a segmentation is the whole trailing run of non-status fragments. */
  lemma LastBubbleIsRun(cs: seq<Component>, role: Role)
    requires Segmented(cs, role) && cs != [] && cs[|cs| - 1].Bubble?
    ensures |cs[|cs| - 1].items| == TrailingRun(AllItems(cs))
  {
    var pre, c := cs[..|cs| - 1], cs[|cs| - 1];
    TrailingRunAppend(AllItems(pre), c.items);
  }

  /** A segmentation renders a status fragment last exactly when its last container is a status container. */
  lemma LastItemStatus(cs: seq<Component>, role: Role)
    requires Segmented(cs, role) && cs != []
    ensures AllItems(cs) != []
    ensures IsStatus(AllItems(cs)[|AllItems(cs)| - 1].fragment) <==> cs[|cs| - 1].StatusBox?
  {
    var pre, c := cs[..|cs| - 1], cs[|cs| - 1];
    assert AllItems(cs)[|AllItems(cs)| - 1] == Items(c)[|Items(c)| - 1];
  }

  /** Two segmentations of the same fragments end in the same kind of container rendering the same fragments. */
  lemma LastContainersAgree(cs1: seq<Component>, cs2: seq<Component>, role: Role)
    requires Segmented(cs1, role) && Segmented(cs2, role) && AllItems(cs1) == AllItems(cs2)
    requires cs1 != [] && cs2 != []
    ensures cs1[|cs1| - 1].Bubble? == cs2[|cs2| - 1].Bubble?
    ensures Items(cs1[|cs1| - 1]) == Items(cs2[|cs2| - 1])
    ensures AllItems(cs1[..|cs1| - 1]) == AllItems(cs2[..|cs2| - 1])
  {
    var pre1, c1 := cs1[..|cs1| - 1], cs1[|cs1| - 1];
    var pre2, c2 := cs2[..|cs2| - 1], cs2[|cs2| - 1];
    LastItemStatus(cs1, role);
    LastItemStatus(cs2, role);
    if c1.Bubble? {
      LastBubbleIsRun(cs1, role);
      LastBubbleIsRun(cs2, role);
    }
    SeqUtil.AppendCancel(AllItems(pre1), Items(c1), AllItems(pre2), Items(c2));
  }

  /**
   * The segmentation is determined by the fragments: two well-shaped
   * container lists that render the same fragments are the same. So every
   * maximal run of non-status fragments is exactly one bubble.
   */
  lemma {:induction false} SegmentationUnique(cs1: seq<Component>, cs2: seq<Component>, role: Role)
    requires Segmented(cs1, role) && Segmented(cs2, role) && AllItems(cs1) == AllItems(cs2)
    ensures cs1 == cs2
    decreases |cs1| + |cs2|
  {
    if cs1 == [] || cs2 == [] {
      if cs1 != [] { SegmentedNonEmpty(cs1, role); }
      if cs2 != [] { SegmentedNonEmpty(cs2, role); }
    } else {
      var pre1, c1 := cs1[..|cs1| - 1], cs1[|cs1| - 1];
      var pre2, c2 := cs2[..|cs2| - 1], cs2[|cs2| - 1];
      LastContainersAgree(cs1, cs2, role);
      SegmentationUnique(pre1, pre2, role);
      if c1.StatusBox? {
        assert c1.item == Items(c1)[0];
      }
      assert cs1 == pre1 + [c1] && cs2 == pre2 + [c2];
    }
  }
}
