/** Values that the extension's three scripts exchange through `chrome.runtime`
    and `chrome.tabs` messaging: commands to the page agent, its replies, and the
    way a caller sees the outcome of a send. */
module Messaging {

  datatype Option<+T> = None | Some(value: T)

  /** A runtime message `{action, color}`. Messages that carry no colour
      (`resetBackground`) have `color == ""`, which no receiver reads. */
  datatype Message = Message(action: string, color: string)

  /** A reply `{success, message?, error?}`; an absent property is `None`. */
  datatype Response = Response(success: bool, message: Option<string>, error: Option<string>)

  /** What the awaiting caller of `chrome.tabs.sendMessage` observes: the
      promise rejects (no receiver, tab gone, ...), or it resolves with the
      receiver's reply, `None` when the reply is `undefined`. */
  datatype SendOutcome = Rejected | Resolved(reply: Option<Response>)

  const ChangeBackground: string := "changeBackground"
  const ResetBackground: string := "resetBackground"
  const ColorChanged: string := "colorChanged"

  /** `{action: 'changeBackground', color}` */
  function ChangeCommand(color: string): Message
  {
    Message(ChangeBackground, color)
  }

  /** `{action: 'resetBackground'}` */
  const ResetCommand: Message := Message(ResetBackground, "")

  /** `{action: 'colorChanged', color}`, the page agent's notification */
  function ColorChangedNotice(color: string): Message
  {
    Message(ColorChanged, color)
  }
}
