/**
 * `JoypadInput`: one controller's map from keyboard key codes to the eight NES
 * buttons, and the pressed/released state of those buttons. Key codes are the
 * integer codes the window system reports.
 */
module Joypad {
  import opened Bytes

  const ButtonA := 0
  const ButtonB := 1
  const ButtonSelect := 2
  const ButtonStart := 3
  const ButtonUp := 4
  const ButtonDown := 5
  const ButtonLeft := 6
  const ButtonRight := 7

  /** `BUTTON_UNBOUNDED`: the map entry of a key bound to no button. */
  const Unbound := -1

  /** `keyboardMap` has 255 entries, one per key code 0..254. */
  const MapSize := 255

  /** A button index that `buttonStates` has an entry for. */
  predicate IsButton(b: int)
  {
    0 <= b < 8
  }

  /** The map after `bindKey(key, button)`: keys outside the map are ignored. */
  function Bind(m: seq<int>, key: int, button: int): (r: seq<int>)
    ensures |r| == |m|
    ensures forall k :: 0 <= k < |m| ==> r[k] == (if k == key then button else m[k])
  {
    if 0 <= key < |m| then m[key := button] else m
  }

  /** The map after `unbindButton(button)`: every key bound to `button` is unbound. */
  function UnbindAll(m: seq<int>, button: int): (r: seq<int>)
    ensures |r| == |m|
  {
    seq(|m|, i requires 0 <= i < |m| => if m[i] == button then Unbound else m[i])
  }

  /** After unbinding a button no key is bound to it, and every other binding is kept. */
  lemma UnbindAllClears(m: seq<int>, button: int)
    requires button != Unbound
    ensures button !in UnbindAll(m, button)
    ensures forall k :: 0 <= k < |m| && m[k] != button ==> UnbindAll(m, button)[k] == m[k]
    ensures forall k :: 0 <= k < |m| && m[k] == button ==> UnbindAll(m, button)[k] == Unbound
  {
  }

  /** Unbinding a button that no key is bound to changes nothing. */
  lemma UnbindAllIdempotent(m: seq<int>, button: int)
    requires button !in m
    ensures UnbindAll(m, button) == m
  {
  }

  /** The key bindings of the two controllers when no saved settings exist. */
  function DefaultButton(num: int, key: int): int
  {
    if num == 0 then
      if key == 38 then ButtonUp else if key == 40 then ButtonDown
      else if key == 37 then ButtonLeft else if key == 39 then ButtonRight
      else if key == 90 then ButtonSelect else if key == 88 then ButtonStart
      else if key == 67 then ButtonB else if key == 86 then ButtonA
      else Unbound
    else if num == 1 then
      if key == 87 then ButtonUp else if key == 83 then ButtonDown
      else if key == 65 then ButtonLeft else if key == 68 then ButtonRight
      else if key == 72 then ButtonSelect else if key == 74 then ButtonStart
      else if key == 75 then ButtonB else if key == 76 then ButtonA
      else Unbound
    else Unbound
  }

  /** Each default layout binds every button to exactly one key. */
  lemma DefaultsBindEachButtonOnce(num: int, b: int)
    requires num == 0 || num == 1
    requires IsButton(b)
    ensures exists k :: 0 <= k < MapSize && DefaultButton(num, k) == b
    ensures forall k, j :: 0 <= k < j < MapSize && DefaultButton(num, k) == b ==> DefaultButton(num, j) != b
  {
    var keys := if num == 0 then [86, 67, 90, 88, 38, 40, 37, 39] else [76, 75, 72, 74, 87, 83, 65, 68];
    assert DefaultButton(num, keys[b]) == b;
  }

  class JoypadInput {
    var keyboardMap: array<int>
    var buttonStates: array<int>

    /** Two distinct arrays of the source's sizes; every button state is 0 or 1. */
    ghost predicate Valid()
      reads this, buttonStates
    {
      && keyboardMap.Length == MapSize
      && buttonStates.Length == 8
      && keyboardMap != buttonStates
      && forall b :: 0 <= b < 8 ==> buttonStates[b] == 0 || buttonStates[b] == 1
    }

    /**
     * The controller `num` with every button released and, as when no saved
     * settings exist, the default key layout of controller 0 or 1.
     */
    constructor (num: int)
      ensures Valid() && fresh(keyboardMap) && fresh(buttonStates)
      ensures forall k :: 0 <= k < MapSize ==> keyboardMap[k] == DefaultButton(num, k)
      ensures buttonStates[..] == [0, 0, 0, 0, 0, 0, 0, 0]
    {
      keyboardMap := new int[MapSize];
      buttonStates := new int[8](_ => 0);
      new;
      UnbindKeys();
      if num == 0 {
        BindKey(38, ButtonUp);
        BindKey(40, ButtonDown);
        BindKey(37, ButtonLeft);
        BindKey(39, ButtonRight);
        BindKey(90, ButtonSelect);
        BindKey(88, ButtonStart);
        BindKey(67, ButtonB);
        BindKey(86, ButtonA);
      } else if num == 1 {
        BindKey(87, ButtonUp);
        BindKey(83, ButtonDown);
        BindKey(65, ButtonLeft);
        BindKey(68, ButtonRight);
        BindKey(72, ButtonSelect);
        BindKey(74, ButtonStart);
        BindKey(75, ButtonB);
        BindKey(76, ButtonA);
      }
      assert buttonStates[..] == [0, 0, 0, 0, 0, 0, 0, 0];
    }

    /** `bindKey`: binds `key` to `button` when `key` has a map entry; otherwise nothing changes. */
    method BindKey(key: int, button: int)
      requires Valid()
      modifies keyboardMap
      ensures Valid()
      ensures keyboardMap[..] == Bind(old(keyboardMap[..]), key, button)
    {
      if key >= 0 && key < keyboardMap.Length {
        keyboardMap[key] := button;
      }
    }

    /** `unbindButton`: every key bound to `button`, and only those, becomes unbound. */
    method UnbindButton(button: int)
      requires Valid()
      modifies keyboardMap
      ensures Valid()
      ensures keyboardMap[..] == UnbindAll(old(keyboardMap[..]), button)
    {
      var i := 0;
      while i < keyboardMap.Length
        invariant 0 <= i <= keyboardMap.Length
        invariant forall k :: 0 <= k < i ==>
          keyboardMap[k] == if old(keyboardMap[k]) == button then Unbound else old(keyboardMap[k])
        invariant forall k :: i <= k < keyboardMap.Length ==> keyboardMap[k] == old(keyboardMap[k])
      {
        if keyboardMap[i] == button {
          keyboardMap[i] := Unbound;
        }
        i := i + 1;
      }
    }

    /**
     * `unbindKey`: unbinds one key. A key code outside the map makes the array
     * access throw before anything is written: `ok` is false and nothing changes.
     */
    method UnbindKey(key: int) returns (ok: bool)
      requires Valid()
      modifies keyboardMap
      ensures Valid()
      ensures ok <==> 0 <= key < MapSize
      ensures keyboardMap[..] == Bind(old(keyboardMap[..]), key, Unbound)
    {
      ok := 0 <= key < keyboardMap.Length;
      if ok {
        keyboardMap[key] := Unbound;
      }
    }

    /** `unbindKeys`: every key becomes unbound. */
    method UnbindKeys()
      requires Valid()
      modifies keyboardMap
      ensures Valid()
      ensures forall k :: 0 <= k < MapSize ==> keyboardMap[k] == Unbound
    {
      var i := 0;
      while i < keyboardMap.Length
        invariant Valid()
        invariant 0 <= i <= keyboardMap.Length
        invariant forall k :: 0 <= k < i ==> keyboardMap[k] == Unbound
      {
        var _ := UnbindKey(i);
        i := i + 1;
      }
    }

    /** `getBoundedButton`: the button a key is bound to; `None` where the array access throws. */
    method GetBoundedButton(key: int) returns (r: Option<int>)
      requires Valid()
      ensures 0 <= key < MapSize <==> r.Some?
      ensures r.Some? ==> r.value == keyboardMap[key]
    {
      if 0 <= key < keyboardMap.Length {
        r := Some(keyboardMap[key]);
      } else {
        r := None;
      }
    }

    /** `getBoundedKey`: the smallest key bound to `button`, or -1 when no key is. */
    method GetBoundedKey(button: int) returns (r: int)
      requires Valid()
      ensures r == Unbound <==> button !in keyboardMap[..]
      ensures r != Unbound ==> 0 <= r < MapSize && keyboardMap[r] == button && button !in keyboardMap[..r]
    {
      var i := 0;
      while i < keyboardMap.Length
        invariant 0 <= i <= keyboardMap.Length
        invariant button !in keyboardMap[..i]
      {
        if keyboardMap[i] == button {
          return i;
        }
        i := i + 1;
      }
      assert keyboardMap[..i] == keyboardMap[..];
      return Unbound;
    }

    /** `getButtonState`: 1 while the button is held, 0 otherwise and for any index that is not a button. */
    method GetButtonState(button: int) returns (r: int)
      requires Valid()
      ensures r == 0 || r == 1
      ensures r == if IsButton(button) then buttonStates[button] else 0
    {
      if button < buttonStates.Length && button >= 0 {
        r := buttonStates[button];
      } else {
        r := 0;
      }
    }

    /**
     * `keyPressed`: holds the button the key is bound to; a key bound to no
     * button changes nothing. A key code outside the map makes the array access
     * throw: `ok` is false and nothing changes.
     */
    method KeyPressed(key: int) returns (ok: bool)
      requires Valid()
      modifies buttonStates
      ensures Valid()
      ensures ok <==> 0 <= key < MapSize
      ensures buttonStates[..] ==
        if 0 <= key < MapSize && IsButton(keyboardMap[key]) then old(buttonStates[..])[keyboardMap[key] := 1]
        else old(buttonStates[..])
    {
      ok := 0 <= key < keyboardMap.Length;
      if ok {
        var button := keyboardMap[key];
        if button < buttonStates.Length && button >= 0 {
          buttonStates[button] := 1;
        }
      }
    }

    /** `keyReleased`: releases the button the key is bound to, under the same rules. */
    method KeyReleased(key: int) returns (ok: bool)
      requires Valid()
      modifies buttonStates
      ensures Valid()
      ensures ok <==> 0 <= key < MapSize
      ensures buttonStates[..] ==
        if 0 <= key < MapSize && IsButton(keyboardMap[key]) then old(buttonStates[..])[keyboardMap[key] := 0]
        else old(buttonStates[..])
    {
      ok := 0 <= key < keyboardMap.Length;
      if ok {
        var button := keyboardMap[key];
        if button < buttonStates.Length && button >= 0 {
          buttonStates[button] := 0;
        }
      }
    }
  }
}
