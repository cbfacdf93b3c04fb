/** The clients of a provider, by their unique bus names. */
module Peers {
  datatype Peer = Peer(name: string)
}
