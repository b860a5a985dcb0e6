/**
 * The window's keyboard state: a table of 1024 key flags that the GLFW key
 * callback keeps up to date, and the close request that Escape raises.
 * Creating the GLFW window, the GL context and the mouse callback are not
 * part of this model.
 */
module Windows {

  /** The size of the key table: key codes 0 .. 1023. */
  const KEY_COUNT: nat := 1024

  /** GLFW's key code for Escape and its action codes. */
  const GLFW_KEY_ESCAPE: int := 256
  const GLFW_RELEASE: int := 0
  const GLFW_PRESS: int := 1

  /**
   * The key table after one key event: a press sets the key's flag, a release
   * clears it, and any other action (a repeat) or a code outside the table
   * leaves every flag as it was.
   */
  function KeyTransition(keys: seq<bool>, key: int, action: int): (r: seq<bool>)
    ensures |r| == |keys|
    ensures forall k :: 0 <= k < |keys| && k != key ==> r[k] == keys[k]
    ensures 0 <= key < |keys| && action == GLFW_PRESS ==> r[key]
    ensures 0 <= key < |keys| && action == GLFW_RELEASE ==> !r[key]
    ensures action != GLFW_PRESS && action != GLFW_RELEASE ==> r == keys
    ensures !(0 <= key < |keys|) ==> r == keys
  {
    if 0 <= key < |keys| && action == GLFW_PRESS then keys[key := true]
    else if 0 <= key < |keys| && action == GLFW_RELEASE then keys[key := false]
    else keys
  }

  /** After a press and its release the key table is as if neither happened, if the key was up. */
  lemma PressThenRelease(keys: seq<bool>, key: int)
    requires 0 <= key < |keys| && !keys[key]
    ensures KeyTransition(KeyTransition(keys, key, GLFW_PRESS), key, GLFW_RELEASE) == keys
  {
    var pressed := KeyTransition(keys, key, GLFW_PRESS);
    var released := KeyTransition(pressed, key, GLFW_RELEASE);
    assert forall k :: 0 <= k < |keys| ==> released[k] == keys[k];
  }

  /** Repeating the same event changes nothing more. */
  lemma KeyTransitionIdempotent(keys: seq<bool>, key: int, action: int)
    ensures KeyTransition(KeyTransition(keys, key, action), key, action) == KeyTransition(keys, key, action)
  {
  }

  /** Flags of keys that are down: the table only ever holds what the last event said. */
  lemma KeyReflectsLastEvent(keys: seq<bool>, key: int, action: int)
    requires 0 <= key < |keys|
    requires action == GLFW_PRESS || action == GLFW_RELEASE
    ensures KeyTransition(keys, key, action)[key] <==> action == GLFW_PRESS
  {
  }

  class Window {
    var width: int
    var height: int
    /** Set once the user asked the window to close (glfwSetWindowShouldClose). */
    var shouldClose: bool
    const keys: array<bool>

    ghost predicate Valid()
    {
      keys.Length == KEY_COUNT
    }

    /** An 800 x 600 window with no key held down. */
    constructor ()
      ensures Valid() && fresh(keys)
      ensures width == 800 && height == 600
      ensures !shouldClose
      ensures forall k :: 0 <= k < KEY_COUNT ==> !keys[k]
    {
      width := 800;
      height := 600;
      shouldClose := false;
      keys := new bool[KEY_COUNT];
      new;
      ClearKeys();
    }

    /** A window of the given size with no key held down. */
    constructor Sized(windowWidth: int, windowHeight: int)
      ensures Valid() && fresh(keys)
      ensures width == windowWidth && height == windowHeight
      ensures !shouldClose
      ensures forall k :: 0 <= k < KEY_COUNT ==> !keys[k]
    {
      width := windowWidth;
      height := windowHeight;
      shouldClose := false;
      keys := new bool[KEY_COUNT];
      new;
      ClearKeys();
    }

    /** Both constructors' loop: every flag of the table set to false. */
    method ClearKeys()
      requires Valid()
      modifies keys
      ensures forall k :: 0 <= k < KEY_COUNT ==> !keys[k]
    {
      for i := 0 to KEY_COUNT
        invariant forall k :: 0 <= k < i ==> !keys[k]
      {
        keys[i] := false;
      }
    }

    /**
     * The key callback: Escape pressed asks the window to close, and a key
     * code inside the table records the press or release.
     */
    method HandleKeys(key: int, code: int, action: int, mode: int)
      requires Valid()
      modifies this, keys
      ensures keys[..] == KeyTransition(old(keys[..]), key, action)
      ensures shouldClose == (old(shouldClose) || (key == GLFW_KEY_ESCAPE && action == GLFW_PRESS))
      ensures width == old(width) && height == old(height)
    {
      if key == GLFW_KEY_ESCAPE && action == GLFW_PRESS {
        shouldClose := true;
      }
      if 0 <= key < KEY_COUNT {
        if action == GLFW_PRESS {
          keys[key] := true;
        } else if action == GLFW_RELEASE {
          keys[key] := false;
        }
      }
    }

    /** The key table itself, not a copy: what a caller reads is the window's own state. */
    function GetKeys(): (r: array<bool>)
      requires Valid()
      ensures r == keys && r.Length == KEY_COUNT
    {
      keys
    }
  }
}
