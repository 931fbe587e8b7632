/** The emoji bar above a long-pressed message: WhatsAppClone/Screens/Chat/Views/ReactionPickerView.swift. */
module ReactionPicker {

  import opened Wrappers

  /** The reactions offered; `More` is the "+" button. (Their emoji strings are not part of this model.) */
  datatype Reaction = Like | Heart | Laugh | Shocked | Sad | Pray | More

  /** Whether the message was sent by the current user or received. */
  datatype MessageDirection = Sent | Received

  /** One button's state; `opacity` is a `CGFloat`. */
  datatype EmojiReaction = EmojiReaction(reaction: Reaction, isAnimating: bool, opacity: real)

  /** `EmojiReaction(reaction:)` with the default `isAnimating` and `opacity`. */
  function Initial(reaction: Reaction): (e: EmojiReaction)
    ensures e.reaction == reaction && !e.isAnimating && e.opacity == 1.0
  {
    EmojiReaction(reaction, false, 1.0)
  }

  /**
   * `getAnimationIndex`: buttons pop in from the side the bubble is on, so
   * for a sent message the order is mirrored.
   */
  function AnimationIndex(direction: MessageDirection, count: int, index: int): (r: int)
    ensures direction == Received ==> r == index
    ensures direction == Sent ==> r == count - 1 - index
    ensures 0 <= index < count ==> 0 <= r < count
  {
    if direction == Sent then count - 1 - index else index
  }

  /** Mirroring twice gives back the index; so on either side every button is started exactly once. */
  lemma AnimationIndexInvolution(direction: MessageDirection, count: int, index: int)
    ensures AnimationIndex(direction, count, AnimationIndex(direction, count, index)) == index
  {
  }

  /** The button's action: `More` does nothing, any other reaction is handed to the handler. */
  function TapHandlerCall(reaction: Reaction): (call: Option<Reaction>)
    ensures call.None? <==> reaction == More
    ensures call.Some? ==> call.value == reaction
  {
    if reaction == More then None else Some(reaction)
  }

  class ReactionPickerView {
    const direction: MessageDirection
    var emojiStates: seq<EmojiReaction>

    /** The seven buttons, "+" last, none animating yet, all fully opaque. */
    constructor (direction: MessageDirection)
      ensures this.direction == direction
      ensures emojiStates == [Initial(Like), Initial(Heart), Initial(Laugh), Initial(Shocked),
                              Initial(Sad), Initial(Pray), Initial(More)]
      ensures |emojiStates| == 7 && emojiStates[6].reaction == More
      ensures forall i :: 0 <= i < |emojiStates| ==> !emojiStates[i].isAnimating && emojiStates[i].opacity == 1.0
    {
      this.direction := direction;
      emojiStates := [Initial(Like), Initial(Heart), Initial(Laugh), Initial(Shocked),
                      Initial(Sad), Initial(Pray), Initial(More)];
    }

    /**
     * The button at `index` appeared: the button at its animation index
     * starts animating; every other entry is left as it was.
     */
    method OnButtonAppear(index: int)
      requires 0 <= index < |emojiStates|
      modifies this
      ensures var k := AnimationIndex(direction, |old(emojiStates)|, index);
        && |emojiStates| == |old(emojiStates)|
        && emojiStates[k] == old(emojiStates)[k].(isAnimating := true)
        && forall i :: 0 <= i < |emojiStates| && i != k ==> emojiStates[i] == old(emojiStates)[i]
    {
      var dynamicIndex := AnimationIndex(direction, |emojiStates|, index);
      emojiStates := emojiStates[dynamicIndex := emojiStates[dynamicIndex].(isAnimating := true)];
    }

    /** Tapping the button at `index`: the reaction passed to the handler, if any. */
    method Tap(index: int) returns (call: Option<Reaction>)
      requires 0 <= index < |emojiStates|
      ensures call.None? <==> emojiStates[index].reaction == More
      ensures call.Some? ==> call.value == emojiStates[index].reaction
    {
      var item := emojiStates[index];
      if item.reaction == More {
        return None;
      }
      call := Some(item.reaction);
    }
  }

  /** Once all seven buttons have appeared, all seven are animating, whichever side the message is on. */
  method AllButtonsAppear(direction: MessageDirection) returns (picker: ReactionPickerView)
    ensures |picker.emojiStates| == 7
    ensures forall i :: 0 <= i < 7 ==> picker.emojiStates[i].isAnimating
  {
    picker := new ReactionPickerView(direction);
    var index := 0;
    while index < 7
      invariant 0 <= index <= 7 && |picker.emojiStates| == 7
      invariant forall i :: 0 <= i < 7 ==>
        (picker.emojiStates[i].isAnimating <==> AnimationIndex(direction, 7, i) < index)
      modifies picker
    {
      picker.OnButtonAppear(index);
      AnimationIndexInvolution(direction, 7, index);
      index := index + 1;
    }
  }
}
