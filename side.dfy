/** The connection states shared by both ends of a thread/GUI tie
    (the class constants of `Side`). */
module Side {

  const Disconnected: int := 1
  const Connecting: int := 2
  const Connected: int := 3

  /** The three values `state` may legitimately hold. */
  predicate IsState(s: int) {
    s == Disconnected || s == Connecting || s == Connected
  }

  /** A newly constructed side: `Side.__init__` sets `state` to DISCONNECTED. */
  function InitialState(): (s: int)
    ensures s == Disconnected
  {
    Disconnected
  }

  /** Exactly three states, 1, 2 and 3, all distinct. */
  lemma ThreeStates()
    ensures {Disconnected, Connecting, Connected} == {1, 2, 3}
    ensures forall s :: IsState(s) <==> s in {1, 2, 3}
  {
  }
}
