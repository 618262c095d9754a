/** The debug-messenger policy: which message severities and types the
    messenger is registered for, and what the callback does with a message. */
module Diagnostics {

  /** `vk::DebugUtilsMessageSeverityFlagBitsEXT`. */
  datatype Severity = Verbose | Info | Warning | Error

  /** `vk::DebugUtilsMessageTypeFlagBitsEXT`. */
  datatype MessageType = General | Validation | Performance | DeviceAddressBinding

  /** `vk::Bool32`, an unsigned 32-bit value. */
  newtype Bool32 = x: int | 0 <= x < 0x1_0000_0000

  const VkFalse: Bool32 := 0

  /** The registration masks of `vk::DebugUtilsMessengerCreateInfoEXT`; the
      user callback is always `DebugCallback`. */
  datatype MessengerCreateInfo = MessengerCreateInfo(
    messageSeverity: set<Severity>,
    messageType: set<MessageType>)

  /** What `setupDebugMessenger` registers. */
  const MessengerSeverityMask: set<Severity> := {Verbose, Warning, Error}
  const MessengerTypeMask: set<MessageType> := {General, Performance, Validation}
  const DebugMessengerInfo: MessengerCreateInfo := MessengerCreateInfo(MessengerSeverityMask, MessengerTypeMask)

  /** What one invocation of the callback does: whether it writes a log line,
      and the value it hands back to the layer. */
  datatype CallbackOutcome = CallbackOutcome(logs: bool, result: Bool32)

  /** `debugCallback`: a log line for warnings and errors only; the result
      is `VK_FALSE` whatever the message, so the call that triggered it is
      never aborted. The message type and text only affect the log line. */
  function DebugCallback(severity: Severity, messageType: set<MessageType>, message: string): (r: CallbackOutcome)
    ensures r.logs <==> severity == Warning || severity == Error
    ensures r.result == VkFalse
  {
    CallbackOutcome(severity == Error || severity == Warning, VkFalse)
  }

  /** Every severity the callback logs is one the messenger is registered
      for, while verbose messages are delivered but not logged and
      informational ones are not delivered at all. */
  lemma CallbackLogsWithinRegistration(severity: Severity, messageType: set<MessageType>, message: string)
    ensures DebugCallback(severity, messageType, message).logs ==> severity in MessengerSeverityMask
    ensures severity in MessengerSeverityMask && !DebugCallback(severity, messageType, message).logs
      <==> severity == Verbose
    ensures severity !in MessengerSeverityMask <==> severity == Info
  {
  }

  /** The registration masks: every type except device-address binding. */
  lemma TypeMaskExcludesOnlyAddressBinding(t: MessageType)
    ensures t in DebugMessengerInfo.messageType <==> t != DeviceAddressBinding
  {
  }
}
