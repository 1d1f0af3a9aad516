/** The page agent (content script): the only code that writes the page's
    inline background styles. It captures the page's own background once,
    paints a colour over it, restores it on reset, and answers the commands
    the background script and the popup send it.

    `getComputedStyle(document.body)` is a host query whose CSS semantics are
    not modelled: each operation that may read it receives the value it would
    return as a `Background` parameter. */
module Content {
  import opened Messaging

  /** A background as the computed style reports it. */
  datatype Background = Background(color: string, image: string)

  /** The inline style values the agent writes: `document.body.style`'s
      background colour and image, and `document.documentElement.style`'s
      background colour. */
  datatype Style = Style(bodyColor: string, bodyImage: string, rootColor: string)

  /** Abstract state of one agent: the snapshot (absent until captured) and
      the inline styles. */
  datatype Agent = Agent(snapshot: Option<Background>, style: Style)

  /** The outcome of the best-effort `chrome.runtime.sendMessage`
      notification: delivered, rejected (swallowed by `.catch`), or a
      synchronous throw that propagates to the caller. */
  datatype Notify = Delivered | Rejected | Throws(message: string)

  /** One event the agent reacts to, in the order the page delivers them. */
  datatype Event =
    | Loaded(computed: Background)                 // DOMContentLoaded, or already loaded
    | VisibilityChanged(hidden: bool, computed: Background)
    | Received(msg: Message, computed: Background) // a runtime message

  const ChangedText: string := "Background color changed successfully"
  const ResetText: string := "Background reset successfully"
  const UnknownText: string := "Unknown action"

  /** A freshly injected agent: `{color: null, image: null, stored: false}`
      over whatever inline styles the page had. */
  function Fresh(inline: Style): Agent
  {
    Agent(None, inline)
  }

  /** `storeOriginalBackground`: capture only when nothing is stored yet. */
  function Capture(a: Agent, computed: Background): Agent
  {
    if a.snapshot.None? then a.(snapshot := Some(computed)) else a
  }

  /** `changeBackgroundColor`: capture first, then paint body and root. */
  function Apply(a: Agent, color: string, computed: Background): Agent
  {
    Capture(a, computed).(style := Style(color, "none", color))
  }

  /** `resetBackgroundColor`: restore the snapshot, or clear the inline styles. */
  function Restore(a: Agent): Agent
  {
    match a.snapshot
    case Some(original) => a.(style := Style(original.color, original.image, ""))
    case None => a.(style := Style("", "", ""))
  }

  /** The state change the message listener makes for one message. */
  function Dispatch(a: Agent, msg: Message, computed: Background): Agent
  {
    if msg.action == ChangeBackground then Apply(a, msg.color, computed)
    else if msg.action == ResetBackground then Restore(a)
    else a
  }

  function Step(a: Agent, e: Event): Agent
  {
    match e
    case Loaded(computed) => Capture(a, computed)
    case VisibilityChanged(hidden, computed) => if hidden then a else Capture(a, computed)
    case Received(msg, computed) => Dispatch(a, msg, computed)
  }

  function Run(a: Agent, events: seq<Event>): Agent
    decreases |events|
  {
    if events == [] then a else Run(Step(a, events[0]), events[1..])
  }

  /** The background that the first capturing event of `events` observes:
      a load, a visibility change to visible, or a `changeBackground`. */
  function FirstCapture(events: seq<Event>): Option<Background>
    decreases |events|
  {
    if events == [] then None
    else match events[0]
      case Loaded(computed) => Some(computed)
      case VisibilityChanged(hidden, computed) =>
        if hidden then FirstCapture(events[1..]) else Some(computed)
      case Received(msg, computed) =>
        if msg.action == ChangeBackground then Some(computed) else FirstCapture(events[1..])
  }

  /** The exception, if any, that escapes the notification call. */
  function Raised(notify: Notify): Option<string>
  {
    if notify.Throws? then Some(notify.message) else None
  }

  /** The listener's reply to a message whose handler raised `notify`. */
  function Reply(action: string, notify: Notify): (r: Response)
    ensures r.success <==> (action == ChangeBackground || action == ResetBackground) && !notify.Throws?
    ensures action != ChangeBackground && action != ResetBackground ==>
              r == Response(false, Some(UnknownText), None)
    ensures (action == ChangeBackground || action == ResetBackground) && notify.Throws? ==>
              r == Response(false, None, Some(notify.message))
    ensures r.success ==>
              r.message == Some(if action == ChangeBackground then ChangedText else ResetText) && r.error.None?
  {
    if action == ChangeBackground || action == ResetBackground then
      match Raised(notify)
      case Some(error) => Response(false, None, Some(error))
      case None => Response(true, Some(if action == ChangeBackground then ChangedText else ResetText), None)
    else
      Response(false, Some(UnknownText), None)
  }

  // ---------------------------------------------------------------------
  // Properties of one operation

  /** The snapshot is taken at most once; later captures change nothing. */
  lemma CaptureAtMostOnce(a: Agent, computed: Background, later: Background)
    ensures a.snapshot.Some? ==> Capture(a, computed) == a
    ensures a.snapshot.None? ==> Capture(a, computed) == Agent(Some(computed), a.style)
    ensures Capture(Capture(a, computed), later) == Capture(a, computed)
  {
  }

  /** Applying paints body and root with the colour, hides the body image,
      and leaves a snapshot that is the old one whenever there was one. */
  lemma ApplyPaints(a: Agent, color: string, computed: Background)
    ensures Apply(a, color, computed).style == Style(color, "none", color)
    ensures Apply(a, color, computed).snapshot ==
              if a.snapshot.Some? then a.snapshot else Some(computed)
  {
  }

  /** Two applies keep the snapshot of the first and the colour of the last:
      the same as applying the second colour alone. Applying is idempotent. */
  lemma ApplyLastColourWins(a: Agent, c1: string, k1: Background, c2: string, k2: Background)
    ensures Apply(Apply(a, c1, k1), c2, k2) == Apply(a, c2, k1)
    ensures Apply(Apply(a, c1, k1), c1, k2) == Apply(a, c1, k1)
  {
  }

  /** Reset with a snapshot restores exactly the captured values; without
      one it clears all three inline styles. It never touches the snapshot
      and is idempotent. */
  lemma RestoreExact(a: Agent)
    ensures a.snapshot.Some? ==>
              Restore(a).style == Style(a.snapshot.value.color, a.snapshot.value.image, "")
    ensures a.snapshot.None? ==> Restore(a).style == Style("", "", "")
    ensures Restore(a).snapshot == a.snapshot
    ensures Restore(Restore(a)) == Restore(a)
  {
  }

  /** On a page with no snapshot yet, apply followed by reset sets the
      body's inline colour and image to the values computed just before the
      apply, and the root's inline colour to `''`, whatever inline styles
      the page had before. */
  lemma ApplyThenRestore(inline: Style, color: string, computed: Background)
    ensures Restore(Apply(Fresh(inline), color, computed)).style ==
              Style(computed.color, computed.image, "")
  {
  }

  // ---------------------------------------------------------------------
  // Properties of event sequences

  /** The snapshot after any run is the one already held, or else the
      background seen by the first capturing event. */
  lemma {:induction false} RunSnapshot(a: Agent, events: seq<Event>)
    ensures Run(a, events).snapshot == if a.snapshot.Some? then a.snapshot else FirstCapture(events)
    decreases |events|
  {
    if events != [] {
      var b := Step(a, events[0]);
      RunSnapshot(b, events[1..]);
      match events[0]
      case Loaded(computed) =>
      case VisibilityChanged(hidden, computed) =>
      case Received(msg, computed) =>
    }
  }

  /** However many applies, resets, loads and visibility changes come in
      between, a reset restores the background the first capture saw. */
  lemma ResetAlwaysRestoresFirstCapture(inline: Style, events: seq<Event>, original: Background)
    requires FirstCapture(events) == Some(original)
    ensures Restore(Run(Fresh(inline), events)).style == Style(original.color, original.image, "")
  {
    RunSnapshot(Fresh(inline), events);
  }

  // ---------------------------------------------------------------------
  // The agent as the content script holds it: `originalBackground` and the
  // three inline style properties, updated in place.

  class PageAgent {
    var color: Option<string>   // originalBackground.color, null until stored
    var image: Option<string>   // originalBackground.image, null until stored
    var stored: bool            // originalBackground.stored
    var bodyColor: string       // document.body.style.backgroundColor
    var bodyImage: string       // document.body.style.backgroundImage
    var rootColor: string       // document.documentElement.style.backgroundColor

    /** Colour and image are stored together or not at all. */
    ghost predicate Valid()
      reads this
    {
      if stored then color.Some? && image.Some? else color.None? && image.None?
    }

    ghost function Model(): Agent
      reads this
      requires Valid()
    {
      Agent(if stored then Some(Background(color.value, image.value)) else None,
            Style(bodyColor, bodyImage, rootColor))
    }

    constructor (inline: Style)
      ensures Valid() && Model() == Fresh(inline)
    {
      color, image, stored := None, None, false;
      bodyColor, bodyImage, rootColor := inline.bodyColor, inline.bodyImage, inline.rootColor;
    }

    method StoreOriginalBackground(computed: Background)
      requires Valid()
      modifies this
      ensures Valid() && Model() == Capture(old(Model()), computed)
    {
      if !stored {
        color := Some(computed.color);
        image := Some(computed.image);
        stored := true;
      }
    }

    /** Returns the notification it sends and the exception that escapes. */
    method ChangeBackgroundColor(newColor: string, computed: Background, notify: Notify)
      returns (notice: Message, thrown: Option<string>)
      requires Valid()
      modifies this
      ensures Valid() && Model() == Apply(old(Model()), newColor, computed)
      ensures notice == ColorChangedNotice(newColor) && thrown == Raised(notify)
    {
      StoreOriginalBackground(computed);
      bodyColor := newColor;
      bodyImage := "none";
      rootColor := newColor;
      notice := ColorChangedNotice(newColor);
      thrown := Raised(notify);
    }

    method ResetBackgroundColor(notify: Notify) returns (notice: Message, thrown: Option<string>)
      requires Valid()
      modifies this
      ensures Valid() && Model() == Restore(old(Model()))
      ensures notice == ColorChangedNotice("reset") && thrown == Raised(notify)
    {
      if stored {
        bodyColor := color.value;
        bodyImage := image.value;
        rootColor := "";
      } else {
        bodyColor := "";
        bodyImage := "";
        rootColor := "";
      }
      notice := ColorChangedNotice("reset");
      thrown := Raised(notify);
    }

    /** The `chrome.runtime.onMessage` listener: the reply it sends and the
        value it returns to keep the channel open. */
    method OnMessage(msg: Message, computed: Background, notify: Notify)
      returns (response: Response, keepOpen: bool)
      requires Valid()
      modifies this
      ensures Valid() && Model() == Dispatch(old(Model()), msg, computed)
      ensures response == Reply(msg.action, notify)
      ensures keepOpen
    {
      if msg.action == ChangeBackground {
        var _, t := ChangeBackgroundColor(msg.color, computed, notify);
        response := if t.Some? then Response(false, None, Some(t.value))
                    else Response(true, Some(ChangedText), None);
      } else if msg.action == ResetBackground {
        var _, t := ResetBackgroundColor(notify);
        response := if t.Some? then Response(false, None, Some(t.value))
                    else Response(true, Some(ResetText), None);
      } else {
        response := Response(false, Some(UnknownText), None);
      }
      keepOpen := true;
    }

    /** The `visibilitychange` listener (its 100 ms delay is not modelled). */
    method OnVisibilityChange(hidden: bool, computed: Background)
      requires Valid()
      modifies this
      ensures Valid() && Model() == Step(old(Model()), VisibilityChanged(hidden, computed))
    {
      if !hidden {
        StoreOriginalBackground(computed);
      }
    }
  }
}
