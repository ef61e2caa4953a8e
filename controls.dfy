/**
 * The keyboard state: which of the four arrow keys are held down. Key-down
 * and key-up events switch one key on or off, and losing the window focus
 * releases them all.
 */
module Keyboard {
  import opened Options

  datatype Key = ArrowLeft | ArrowRight | ArrowUp | ArrowDown

  /** One flag per arrow key, true while the key is held. */
  datatype Controls = Controls(arrowLeft: bool, arrowRight: bool, arrowUp: bool, arrowDown: bool)

  /** The `KeyboardEvent.code` value of each key. */
  function CodeOf(k: Key): string {
    match k
    case ArrowLeft => "ArrowLeft"
    case ArrowRight => "ArrowRight"
    case ArrowUp => "ArrowUp"
    case ArrowDown => "ArrowDown"
  }

  /** The key an event code names, if it is one of the four. */
  function KeyOf(code: string): (r: Option<Key>)
    ensures r.Some? ==> CodeOf(r.value) == code
    ensures r.None? ==> forall k: Key :: CodeOf(k) != code
  {
    if code == "ArrowLeft" then Some(ArrowLeft)
    else if code == "ArrowRight" then Some(ArrowRight)
    else if code == "ArrowUp" then Some(ArrowUp)
    else if code == "ArrowDown" then Some(ArrowDown)
    else None
  }

  /** Every key's code is recognised as that key. */
  lemma KeyOfCodeOf(k: Key)
    ensures KeyOf(CodeOf(k)) == Some(k)
  {
  }

  function Pressed(c: Controls, k: Key): bool {
    match k
    case ArrowLeft => c.arrowLeft
    case ArrowRight => c.arrowRight
    case ArrowUp => c.arrowUp
    case ArrowDown => c.arrowDown
  }

  /** Two records are equal when they agree on every key. */
  lemma ControlsByKeys(c: Controls, d: Controls)
    requires forall k: Key :: Pressed(c, k) == Pressed(d, k)
    ensures c == d
  {
    assert Pressed(c, ArrowLeft) == Pressed(d, ArrowLeft);
    assert Pressed(c, ArrowRight) == Pressed(d, ArrowRight);
    assert Pressed(c, ArrowUp) == Pressed(d, ArrowUp);
    assert Pressed(c, ArrowDown) == Pressed(d, ArrowDown);
  }

  /** `c` with key `k` set to `value`. */
  function WithKey(c: Controls, k: Key, value: bool): (r: Controls)
    ensures Pressed(r, k) == value
    ensures forall other: Key :: other != k ==> Pressed(r, other) == Pressed(c, other)
  {
    match k
    case ArrowLeft => c.(arrowLeft := value)
    case ArrowRight => c.(arrowRight := value)
    case ArrowUp => c.(arrowUp := value)
    case ArrowDown => c.(arrowDown := value)
  }

  /** No key held. */
  function CreateControls(): (r: Controls)
    ensures forall k: Key :: !Pressed(r, k)
  {
    Controls(false, false, false, false)
  }

  /** The record after a key-down event with `code`. */
  function AfterKeyDown(c: Controls, code: string): (r: Controls)
    ensures KeyOf(code).Some? ==> Pressed(r, KeyOf(code).value)
    ensures forall k: Key :: CodeOf(k) != code ==> Pressed(r, k) == Pressed(c, k)
  {
    match KeyOf(code)
    case Some(k) => WithKey(c, k, true)
    case None => c
  }

  /** The record after a key-up event with `code`. */
  function AfterKeyUp(c: Controls, code: string): (r: Controls)
    ensures KeyOf(code).Some? ==> !Pressed(r, KeyOf(code).value)
    ensures forall k: Key :: CodeOf(k) != code ==> Pressed(r, k) == Pressed(c, k)
  {
    match KeyOf(code)
    case Some(k) => WithKey(c, k, false)
    case None => c
  }

  /** An event code that names none of the four keys changes nothing. */
  lemma UnknownCodeIgnored(c: Controls, code: string)
    requires KeyOf(code).None?
    ensures AfterKeyDown(c, code) == c && AfterKeyUp(c, code) == c
  {
  }

  /** Holding a key down and repeating the key-down event changes nothing. */
  lemma KeyDownIdempotent(c: Controls, code: string)
    ensures AfterKeyDown(AfterKeyDown(c, code), code) == AfterKeyDown(c, code)
  {
    var once := AfterKeyDown(c, code);
    forall k: Key
      ensures Pressed(AfterKeyDown(once, code), k) == Pressed(once, k)
    {
      if CodeOf(k) == code {
        KeyOfCodeOf(k);
      }
    }
    ControlsByKeys(AfterKeyDown(once, code), once);
  }

  /** Pressing and releasing a key is the same as releasing it: the key ends
      up released and the others keep their state. */
  lemma KeyDownThenUp(c: Controls, code: string)
    ensures AfterKeyUp(AfterKeyDown(c, code), code) == AfterKeyUp(c, code)
  {
    var down := AfterKeyDown(c, code);
    forall k: Key
      ensures Pressed(AfterKeyUp(down, code), k) == Pressed(AfterKeyUp(c, code), k)
    {
      if CodeOf(k) == code {
        KeyOfCodeOf(k);
      }
    }
    ControlsByKeys(AfterKeyUp(down, code), AfterKeyUp(c, code));
  }

  /** The module-level record the event handlers update. */
  class ControlState {
    var controls: Controls

    constructor ()
      ensures controls == CreateControls()
    {
      controls := CreateControls();
    }

    method OnKeyDown(code: string)
      modifies this
      ensures controls == AfterKeyDown(old(controls), code)
    {
      var key := KeyOf(code);
      if key.Some? {
        controls := WithKey(controls, key.value, true);
      }
    }

    method OnKeyUp(code: string)
      modifies this
      ensures controls == AfterKeyUp(old(controls), code)
    {
      var key := KeyOf(code);
      if key.Some? {
        controls := WithKey(controls, key.value, false);
      }
    }

    /** Losing the window focus releases every key. */
    method OnBlur()
      modifies this
      ensures controls == CreateControls()
    {
      controls := CreateControls();
    }
  }
}
