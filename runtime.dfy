/**
 * What the display code borrows from the Node.js runtime: `null`/`undefined`
 * as an optional value, and timer handles returned by `setInterval` and
 * `setTimeout`, modelled as abstract numbers.
 */
module Runtime {

  /** A JavaScript value that may be `null` or `undefined`. */
  datatype Option<T> = None | Some(value: T)

  /** An abstract timer handle; the model only compares handles. */
  type TimerId = nat

  /** The timers an optional handle keeps alive: none, or exactly the one it holds. */
  function Handles(t: Option<TimerId>): (s: set<TimerId>)
    ensures |s| <= 1
    ensures t.Some? ==> t.value in s
    ensures t.None? <==> s == {}
    ensures forall id :: id in s ==> t == Some(id)
  {
    if t.Some? then {t.value} else {}
  }
}
