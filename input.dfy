/** The keyboard state of src/core/Input.js: seven boolean flags and the
    keydown/keyup handlers that map a KeyboardEvent.code to one of them. */
module Input {
  import opened Geometry

  datatype Flag = Forward | Backward | Left | Right | Brake | Nitro | ChangeCamera

  /** The `keys` record. */
  datatype Keys = Keys(forward: bool, backward: bool, left: bool, right: bool,
                       brake: bool, nitro: bool, changeCamera: bool)
  {
    function Get(f: Flag): bool {
      match f
      case Forward => forward
      case Backward => backward
      case Left => left
      case Right => right
      case Brake => brake
      case Nitro => nitro
      case ChangeCamera => changeCamera
    }

    /** The record with flag `f` set to `v` and every other flag as it was. */
    function With(f: Flag, v: bool): (k: Keys)
      ensures k.Get(f) == v
      ensures forall g :: g != f ==> k.Get(g) == Get(g)
    {
      match f
      case Forward => this.(forward := v)
      case Backward => this.(backward := v)
      case Left => this.(left := v)
      case Right => this.(right := v)
      case Brake => this.(brake := v)
      case Nitro => this.(nitro := v)
      case ChangeCamera => this.(changeCamera := v)
    }
  }

  const AllReleased := Keys(false, false, false, false, false, false, false)

  /** The case labels shared by both switch statements. */
  function FlagOf(code: string): Option<Flag> {
    match code
    case "KeyW" => Some(Forward)
    case "ArrowUp" => Some(Forward)
    case "KeyS" => Some(Backward)
    case "ArrowDown" => Some(Backward)
    case "KeyA" => Some(Left)
    case "ArrowLeft" => Some(Left)
    case "KeyD" => Some(Right)
    case "ArrowRight" => Some(Right)
    case "Space" => Some(Brake)
    case "ShiftLeft" => Some(Nitro)
    case "ShiftRight" => Some(Nitro)
    case "KeyC" => Some(ChangeCamera)
    case _ => None
  }

  /** The flags after a keydown of `code`. */
  function Press(k: Keys, code: string): (r: Keys)
    ensures FlagOf(code).Some? ==> r.Get(FlagOf(code).value)
    ensures forall g :: FlagOf(code) != Some(g) ==> r.Get(g) == k.Get(g)
  {
    match FlagOf(code)
    case Some(f) => k.With(f, true)
    case None => k
  }

  /** The flags after a keyup of `code`. */
  function Release(k: Keys, code: string): (r: Keys)
    ensures FlagOf(code).Some? ==> !r.Get(FlagOf(code).value)
    ensures forall g :: FlagOf(code) != Some(g) ==> r.Get(g) == k.Get(g)
  {
    match FlagOf(code)
    case Some(f) => k.With(f, false)
    case None => k
  }

  /** Every flag of a record is determined by Get. */
  lemma KeysExtensional(a: Keys, b: Keys)
    requires forall f :: a.Get(f) == b.Get(f)
    ensures a == b
  {
    assert a.Get(Forward) == b.Get(Forward) && a.Get(Backward) == b.Get(Backward);
    assert a.Get(Left) == b.Get(Left) && a.Get(Right) == b.Get(Right);
    assert a.Get(Brake) == b.Get(Brake) && a.Get(Nitro) == b.Get(Nitro);
    assert a.Get(ChangeCamera) == b.Get(ChangeCamera);
  }

  /** The key table of both handlers: which codes reach which flag. */
  lemma KeyTable(code: string)
    ensures FlagOf(code) == Some(Forward) <==> code == "KeyW" || code == "ArrowUp"
    ensures FlagOf(code) == Some(Backward) <==> code == "KeyS" || code == "ArrowDown"
    ensures FlagOf(code) == Some(Left) <==> code == "KeyA" || code == "ArrowLeft"
    ensures FlagOf(code) == Some(Right) <==> code == "KeyD" || code == "ArrowRight"
    ensures FlagOf(code) == Some(Brake) <==> code == "Space"
    ensures FlagOf(code) == Some(Nitro) <==> code == "ShiftLeft" || code == "ShiftRight"
    ensures FlagOf(code) == Some(ChangeCamera) <==> code == "KeyC"
  {
  }

  /** Pressing a key twice is the same as pressing it once. */
  lemma {:induction false} PressIdempotent(k: Keys, code: string)
    ensures Press(Press(k, code), code) == Press(k, code)
  {
    forall f ensures Press(Press(k, code), code).Get(f) == Press(k, code).Get(f) {
    }
    KeysExtensional(Press(Press(k, code), code), Press(k, code));
  }

  /** A keyup after a keydown of the same code leaves the flags as a keyup
      alone would; when that flag was up before, the flags are restored. */
  lemma {:induction false} PressThenRelease(k: Keys, code: string)
    ensures Release(Press(k, code), code) == Release(k, code)
    ensures FlagOf(code).Some? && !k.Get(FlagOf(code).value) ==> Release(Press(k, code), code) == k
  {
    forall f ensures Release(Press(k, code), code).Get(f) == Release(k, code).Get(f) {
    }
    KeysExtensional(Release(Press(k, code), code), Release(k, code));
    if FlagOf(code).Some? && !k.Get(FlagOf(code).value) {
      forall f ensures Release(k, code).Get(f) == k.Get(f) {
      }
      KeysExtensional(Release(k, code), k);
    }
  }

  /** The Input object: its `keys` record and the two handlers. */
  class Input {
    var keys: Keys

    constructor()
      ensures keys == AllReleased
    {
      keys := AllReleased;
    }

    /** keydown: sets the mapped flag and reports whether the code was one
        of the handled ones (the source then calls preventDefault). */
    method OnKeyDown(code: string) returns (handled: bool)
      modifies this
      ensures keys == Press(old(keys), code)
      ensures handled <==> FlagOf(code).Some?
    {
      handled := true;
      match code
      case "KeyW" => keys := keys.(forward := true);
      case "ArrowUp" => keys := keys.(forward := true);
      case "KeyS" => keys := keys.(backward := true);
      case "ArrowDown" => keys := keys.(backward := true);
      case "KeyA" => keys := keys.(left := true);
      case "ArrowLeft" => keys := keys.(left := true);
      case "KeyD" => keys := keys.(right := true);
      case "ArrowRight" => keys := keys.(right := true);
      case "Space" => keys := keys.(brake := true);
      case "ShiftLeft" => keys := keys.(nitro := true);
      case "ShiftRight" => keys := keys.(nitro := true);
      case "KeyC" => keys := keys.(changeCamera := true);
      case _ => handled := false;
    }

    /** keyup: clears the mapped flag. */
    method OnKeyUp(code: string)
      modifies this
      ensures keys == Release(old(keys), code)
    {
      match code
      case "KeyW" => keys := keys.(forward := false);
      case "ArrowUp" => keys := keys.(forward := false);
      case "KeyS" => keys := keys.(backward := false);
      case "ArrowDown" => keys := keys.(backward := false);
      case "KeyA" => keys := keys.(left := false);
      case "ArrowLeft" => keys := keys.(left := false);
      case "KeyD" => keys := keys.(right := false);
      case "ArrowRight" => keys := keys.(right := false);
      case "Space" => keys := keys.(brake := false);
      case "ShiftLeft" => keys := keys.(nitro := false);
      case "ShiftRight" => keys := keys.(nitro := false);
      case "KeyC" => keys := keys.(changeCamera := false);
      case _ =>
    }
  }
}
