/** Keyboard state and the frame clock (main.js:306-316, 336-343). */
module Input {
  import opened World

  datatype Option<T> = None | Some(value: T)

  /** The six held-key flags the player reads. */
  datatype Keys = Keys(w: bool, a: bool, s: bool, d: bool, space: bool, shift: bool)

  /** The logical keys, one per flag. */
  datatype Key = W | A | S | D | Space | Shift

  const NO_KEYS := Keys(false, false, false, false, false, false)

  /** The flag a logical key stands for. */
  function Held(keys: Keys, k: Key): bool
  {
    match k
    case W => keys.w
    case A => keys.a
    case S => keys.s
    case D => keys.d
    case Space => keys.space
    case Shift => keys.shift
  }

  /** The flag a physical key code drives, if any. */
  function KeyOf(code: string): (k: Option<Key>)
    ensures k == Some(Shift) <==> code == "ShiftLeft" || code == "ShiftRight"
    ensures k == Some(W) <==> code == "KeyW"
    ensures k == Some(A) <==> code == "KeyA"
    ensures k == Some(S) <==> code == "KeyS"
    ensures k == Some(D) <==> code == "KeyD"
    ensures k == Some(Space) <==> code == "Space"
  {
    if code == "KeyW" then Some(W)
    else if code == "KeyA" then Some(A)
    else if code == "KeyS" then Some(S)
    else if code == "KeyD" then Some(D)
    else if code == "Space" then Some(Space)
    else if code == "ShiftLeft" || code == "ShiftRight" then Some(Shift)
    else None
  }

  /** The flags after a key event with `code` going down or up. */
  function Press(keys: Keys, code: string, down: bool): (r: Keys)
    ensures forall k :: Held(r, k) == if KeyOf(code) == Some(k) then down else Held(keys, k)
  {
    match KeyOf(code)
    case None => keys
    case Some(W) => keys.(w := down)
    case Some(A) => keys.(a := down)
    case Some(S) => keys.(s := down)
    case Some(D) => keys.(d := down)
    case Some(Space) => keys.(space := down)
    case Some(Shift) => keys.(shift := down)
  }

  /** A code that drives no flag leaves every flag as it was. */
  lemma PressUnknown(keys: Keys, code: string, down: bool)
    requires KeyOf(code) == None
    ensures Press(keys, code, down) == keys
  {
  }

  /** Pressing then releasing a key restores the flag to up, whatever the
      other events in between did to other flags. */
  lemma PressRelease(keys: Keys, code: string, other: string, down: bool)
    requires KeyOf(code).Some? && KeyOf(other) != KeyOf(code)
    ensures Held(Press(Press(Press(keys, code, true), other, down), code, false), KeyOf(code).value) == false
    ensures Held(Press(Press(keys, code, true), other, down), KeyOf(code).value) == true
  {
  }

  /** The step length of a frame that starts `now` milliseconds on the clock
      after the previous frame started at `last`. */
  function FrameDt(now: real, last: real): (dt: real)
    ensures dt <= MAX_DT
    ensures dt <= (now - last) / 1000.0
    ensures dt == MAX_DT || dt == (now - last) / 1000.0
    ensures now >= last ==> dt >= 0.0
  {
    Min(MAX_DT, (now - last) / 1000.0)
  }
}
