/**
 * Keyboard and touch input state (`src/input.js`): a map from lower-cased
 * key names to whether the key is held, and the unified movement flags.
 *
 * The browser's key events and the touch-controls lookup are parameters;
 * registering and removing the window listeners is left out.
 */
module Input {
  import opened Wrappers
  import opened Text

  /** The touch controls' four direction flags. */
  datatype TouchControls = TouchControls(forward: bool, backward: bool, left: bool, right: bool)

  datatype Movement = Movement(forward: bool, backward: bool, left: bool, right: bool)

  /** `keys[name] === true`: a key never seen is not pressed. */
  predicate Pressed(keys: map<string, bool>, name: string) {
    name in keys && keys[name]
  }

  /** The key map after a key-down (`pressed`) or key-up event for `key`. */
  function KeysAfter(keys: map<string, bool>, key: string, pressed: bool): (r: map<string, bool>)
    ensures Lower(key) in r && r[Lower(key)] == pressed
    ensures forall name :: name != Lower(key) ==> (name in r <==> name in keys)
    ensures forall name :: name != Lower(key) && name in keys ==> r[name] == keys[name]
  {
    keys[Lower(key) := pressed]
  }

  /** After a key-down, exactly the keys held before and the new key (in any case) are held. */
  lemma PressThenQuery(keys: map<string, bool>, key: string, query: string)
    ensures Pressed(KeysAfter(keys, key, true), Lower(query)) <==>
              Lower(query) == Lower(key) || Pressed(keys, Lower(query))
  {
  }

  /**
   * After a key-up, that key is not held whatever case it is queried in
   * (any query with the same lower-case form), and every other key is held
   * exactly when it was before.
   */
  lemma ReleaseThenQuery(keys: map<string, bool>, key: string, query: string)
    ensures Pressed(KeysAfter(keys, key, false), Lower(query)) <==>
              Lower(query) != Lower(key) && Pressed(keys, Lower(query))
    ensures Lower(query) == Lower(key) ==> !Pressed(KeysAfter(keys, key, false), Lower(query))
  {
  }

  /** `getMovementInput` on a key map and the touch controls, each direction an either-or of two keys and touch. */
  function MovementOf(keys: map<string, bool>, touch: Option<TouchControls>): (m: Movement)
    ensures m.forward <==> Pressed(keys, "w") || Pressed(keys, "arrowup") || (touch.Some? && touch.value.forward)
    ensures m.backward <==> Pressed(keys, "s") || Pressed(keys, "arrowdown") || (touch.Some? && touch.value.backward)
    ensures m.left <==> Pressed(keys, "a") || Pressed(keys, "arrowleft") || (touch.Some? && touch.value.left)
    ensures m.right <==> Pressed(keys, "d") || Pressed(keys, "arrowright") || (touch.Some? && touch.value.right)
  {
    var t := if touch.Some? then touch.value else TouchControls(false, false, false, false);
    Movement(Pressed(keys, "w") || Pressed(keys, "arrowup") || t.forward,
             Pressed(keys, "s") || Pressed(keys, "arrowdown") || t.backward,
             Pressed(keys, "a") || Pressed(keys, "arrowleft") || t.left,
             Pressed(keys, "d") || Pressed(keys, "arrowright") || t.right)
  }

  /** With no keys held and no touch controls, the player does not move. */
  lemma NoInputNoMovement()
    ensures MovementOf(map[], None) == Movement(false, false, false, false)
  {
  }

  /** Holding "W" (any case) moves the player forward. */
  lemma UpperCaseKeyMoves(keys: map<string, bool>, touch: Option<TouchControls>)
    ensures MovementOf(KeysAfter(keys, "W", true), touch).forward
  {
    assert Lower("W") == "w";
  }

  class InputManager {
    var keys: map<string, bool>
    var touchControls: Option<TouchControls>

    /** A manager with no keys held and the touch controls found at start-up. */
    constructor(touch: Option<TouchControls>)
      ensures keys == map[] && touchControls == touch
    {
      keys := map[];
      touchControls := touch;
    }

    /** `handleKeyDown`: marks the lower-cased key as held; no other entry changes. */
    method HandleKeyDown(key: string)
      modifies this`keys
      ensures keys == KeysAfter(old(keys), key, true)
    {
      keys := keys[Lower(key) := true];
    }

    /** `handleKeyUp`: marks the lower-cased key as released; no other entry changes. */
    method HandleKeyUp(key: string)
      modifies this`keys
      ensures keys == KeysAfter(old(keys), key, false)
    {
      keys := keys[Lower(key) := false];
    }

    /** `isKeyPressed`: the query is lower-cased as well, so it is case-insensitive. */
    function IsKeyPressed(key: string): (r: bool)
      reads this
      ensures r <==> Lower(key) in keys && keys[Lower(key)]
    {
      Pressed(keys, Lower(key))
    }

    function GetMovementInput(): (m: Movement)
      reads this
      ensures m == MovementOf(keys, touchControls)
      ensures m.forward <==> IsKeyPressed("w") || IsKeyPressed("ArrowUp")
                             || (touchControls.Some? && touchControls.value.forward)
    {
      assert Lower("w") == "w" && Lower("ArrowUp") == "arrowup";
      MovementOf(keys, touchControls)
    }

    /** `disableInput`: every key is released by emptying the map. */
    method DisableInput()
      modifies this`keys
      ensures keys == map[]
      ensures forall key :: !IsKeyPressed(key)
    {
      keys := map[];
    }

    /** `cleanup`: as `disableInput`. */
    method Cleanup()
      modifies this`keys
      ensures keys == map[]
    {
      DisableInput();
    }
  }

  /** A query and its lower-cased form always agree: lower-casing twice changes nothing. */
  lemma QueryIgnoresCase(keys: map<string, bool>, key: string)
    ensures Pressed(keys, Lower(key)) == Pressed(keys, Lower(Lower(key)))
  {
    LowerIdempotent(key);
  }
}
