/** The plugin's lifecycle flags and the effect of one atomic bridge step. */
module Lifecycle {
  import opened Channel
  import opened Provider

  /** The two process-wide flags owned by the plugin object. */
  datatype Flags = Flags(isInitialized: bool, isLoggedIn: bool)

  /**
   * What one atomic step does: the flags it leaves behind, the SDK requests it
   * issues and the events it sends to the host, each in order.
   */
  datatype Effect = Effect(flags: Flags, calls: seq<ProviderCall>, events: seq<OutboundEvent>)

  /** A step that issues nothing, sends nothing and changes no flag. */
  function Quiet(flags: Flags): Effect {
    Effect(flags, [], [])
  }
}
