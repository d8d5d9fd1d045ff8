/** The plugin-level state that the configuration windows read and write
    (the `Plugin` members used by the windows under FCNameColor/UI): whether the first
    setup is running, the current player's Name@World key, the outcome flags
    of the Lodestone fetch, the retry cooldown and the FC-search flags. How
    the plugin itself updates them is not part of this model. */
module PluginState {
  import opened Wrappers
  import opened Model

  class Plugin {
    var firstTime: bool
    var playerKey: Option<string>      // null before the local player is known
    var notFound: bool                 // character not found on Lodestone
    var notInFC: bool
    var loading: bool
    var error: bool
    var cooldown: int                  // seconds before Clear & Retry is offered again
    var searchingFC: bool
    var searchingFCError: Option<string>
    var fc: Option<FC>                 // the player's own FC, once fetched
    var configOpen: bool
  }
}
