/** The keyboard snapshot of src/input.cpp. `poll` stores the array of key states
    the platform layer hands out (one byte per scancode, non-zero meaning "down")
    together with its length; `isKeyPressed` is a bounds-guarded read of it.
    The static `s_state` and `s_len` become fields of an `Input` object, the
    null pointer `None`, and the array `SDL_GetKeyboardState` returns is passed
    to `Poll` as a sequence. */
module Input {

  /** `Uint8`. */
  newtype uint8 = x: int | 0 <= x < 0x100

  datatype Option<T> = None | Some(value: T)

  /** The scancodes a snapshot reports as down: an independent, set-based reading
      of the snapshot. */
  ghost function Pressed(keys: seq<uint8>): set<int>
  {
    set sc | 0 <= sc < |keys| && keys[sc] != 0
  }

  class Input {
    var state: Option<seq<uint8>>
    var len: int

    /** The pointer and the length always come from the same `poll`: no snapshot
        means length 0, otherwise the length is that of the snapshot. */
    ghost predicate Valid()
      reads this
    {
      match state
      case None => len == 0
      case Some(keys) => len == |keys|
    }

    /** The static initialisers: a null snapshot of length 0. */
    constructor ()
      ensures Valid() && state == None && len == 0
    {
      state := None;
      len := 0;
    }

    /** `poll()`: replaces the snapshot and its length together. */
    method Poll(keys: seq<uint8>)
      modifies this
      ensures Valid() && state == Some(keys) && len == |keys|
    {
      state := Some(keys);
      len := |keys|;
    }

    /** `isKeyPressed(sc)`: false without a snapshot or for a scancode at or past its
        length (which is never read); otherwise whether the snapshot's byte for
        `sc` is non-zero. The source checks only the upper bound, so callers pass a
        non-negative scancode. */
    function IsKeyPressed(sc: int): (r: bool)
      reads this
      requires Valid() && 0 <= sc
      ensures state == None ==> !r
      ensures r ==> sc < len
      ensures state.Some? && sc < len ==> (r <==> state.value[sc] != 0)
      ensures r <==> state.Some? && sc in Pressed(state.value)
    {
      if state.Some? && sc < len then state.value[sc] != 0 else false
    }
  }

  /** Before any poll, no key is reported as pressed. */
  lemma NothingPressedBeforePoll(inp: Input, sc: int)
    requires inp.Valid() && inp.state == None && 0 <= sc
    ensures !inp.IsKeyPressed(sc)
  {
  }

  /** After `Poll(keys)`, the keys reported as pressed are exactly `Pressed(keys)`,
      and lookups are bounded by the new length. */
  lemma LookupAfterPoll(inp: Input, keys: seq<uint8>, sc: int)
    requires inp.Valid() && inp.state == Some(keys) && 0 <= sc
    ensures inp.IsKeyPressed(sc) <==> sc in Pressed(keys)
    ensures sc >= |keys| ==> !inp.IsKeyPressed(sc)
  {
  }
}
