/**
 * Outbound messages to the embedded editor. Both layers of a message have the
 * shape `{type, payload}`: the outer envelope is always of type Action, and a
 * settings action nests a second `{type, payload}` inside it.
 */
module Messaging {
  /** The one message type the native side sends here. */
  datatype MessageType = Action

  /** The settings commands this component issues. */
  datatype Setting = UpdateScrollThresholdAndMargin | Focus

  /** Where to put the caret: 'start', 'end', 'all', an offset, a boolean or null. */
  datatype FocusPos = Start | End | All | Offset(offset: int) | Flag(flag: bool) | NoPosition

  /** The payload of a settings action. */
  datatype SettingValue = Bottom(bottom: int) | Position(pos: FocusPos)

  /** An action: a settings command, or an action object built by a plugin (opaque here). */
  datatype ActionPayload =
    | SettingsAction(setting: Setting, value: SettingValue)
    | PluginAction(token: nat)

  /** The outer envelope `{type, payload}`. */
  datatype Message = Envelope(kind: MessageType, payload: ActionPayload)

  /** The envelope `sendAction(a)` hands to `sendMessage`. */
  function ActionMessage(a: ActionPayload): Message
  {
    Envelope(Action, a)
  }

  /** The action `updateScrollThresholdAndMargin(bottom)` sends. */
  function ScrollThresholdAction(bottom: int): ActionPayload
  {
    SettingsAction(UpdateScrollThresholdAndMargin, Bottom(bottom))
  }

  /** The action `focus(pos)` sends. */
  function FocusAction(pos: FocusPos): ActionPayload
  {
    SettingsAction(Focus, Position(pos))
  }
}
