/** A keyboard key as an edge detector: `Press` and `Release` report whether
    they changed the key's state, so a held key is reported once. */
module Input {

  class Key {
    /** `SDL_Keycode`. */
    const keycode: int
    var pressed: bool

    constructor (code: int)
      ensures keycode == code && !pressed
    {
      keycode := code;
      pressed := false;
    }

    function GetCode(): (c: int)
      ensures c == keycode
    {
      keycode
    }

    /** True exactly when the key was up; afterwards it is down. */
    method Press() returns (changed: bool)
      modifies this
      ensures changed <==> !old(pressed)
      ensures pressed
    {
      if !pressed {
        pressed := true;
        return true;
      }
      return false;
    }

    /** True exactly when the key was down; afterwards it is up. */
    method Release() returns (changed: bool)
      modifies this
      ensures changed <==> old(pressed)
      ensures !pressed
    {
      if pressed {
        pressed := false;
        return true;
      }
      return false;
    }

    method Reset()
      modifies this
      ensures !pressed
    {
      pressed := false;
    }
  }

  /** A client: of two presses in a row only the first is reported, and of
      two releases in a row only the first. */
  method PressTwiceReleaseTwice(k: Key) returns (p1: bool, p2: bool, r1: bool, r2: bool)
    modifies k
    ensures p1 == !old(k.pressed) && !p2
    ensures r1 && !r2 && !k.pressed
  {
    p1 := k.Press();
    p2 := k.Press();
    r1 := k.Release();
    r2 := k.Release();
  }
}
