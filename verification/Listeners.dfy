module Listeners {
  /** The identity of a remote object: a subscriber's listener, or a publisher's final subscriber. Two
      subscribers are the same when their listeners are. */
  type Listener = int
}
