/**
 * The keyboard playground of exercise2: a `keydown` handler that edits a
 * rolling text buffer of upper-case letters and the colour, position,
 * rotation and scale of one box.
 *
 * The handler's meaning is given once, as the pure function `Step` over a
 * `Box` value; the class `KeyboardPlayground` holds the module-level
 * variables of the page and its `HandleKey` method updates them in place,
 * branch by branch as the handler does, and is proved to agree with `Step`.
 */
module Playground {

  datatype Option<T> = None | Some(value: T)

  /** The text buffer keeps at most this many letters; older ones fall off the front. */
  const MaxText: nat := 20

  /** The box scale, in tenths: 1.0 initially, kept within [0.5, 2]. */
  const InitialScale: int := 10
  const MinScale: int := 5
  const MaxScale: int := 20

  /** Pixels per ArrowUp/ArrowDown press, degrees per ArrowLeft/ArrowRight press. */
  const MoveStep: int := 10
  const RotateStep: int := 15

  /** The background the space bar restores. */
  const ResetColour: string := "#9b59b6"

  /** The colour table consulted for every key; only the digits 1 to 9 are in it. */
  const Colours: map<string, string> := map[
    "1" := "#e74c3c",  // red
    "2" := "#e67e22",  // orange
    "3" := "#f1c40f",  // yellow
    "4" := "#2ecc71",  // green
    "5" := "#3498db",  // blue
    "6" := "#9b59b6",  // purple
    "7" := "#e91e63",  // pink
    "8" := "#00bcd4",  // cyan
    "9" := "#795548"   // brown
  ]

  /**
   * The page state. `colour` is the inline background the handler has
   * written, `None` while the stylesheet's own background still shows.
   */
  datatype Box = Box(text: string, x: int, y: int, scale: int, rotation: int, colour: Option<string>)

  /** The state when the page loads. */
  const Initial: Box := Box("", 0, 0, InitialScale, 0, None)

  predicate IsAsciiLetter(c: char) { 'a' <= c <= 'z' || 'A' <= c <= 'Z' }

  predicate IsUpperLetter(c: char) { 'A' <= c <= 'Z' }

  /** Upper-casing of one ASCII letter. */
  function UpperOf(c: char): (u: char)
    requires IsAsciiLetter(c)
    ensures IsUpperLetter(u)
    ensures IsUpperLetter(c) ==> u == c
    ensures !IsUpperLetter(c) ==> u as int == c as int - ('a' as int - 'A' as int)
  {
    if 'a' <= c <= 'z' then (c as int - 32) as char else c
  }

  /** A key value of exactly one character that is an ASCII letter. */
  predicate IsLetterKey(key: string) { |key| == 1 && IsAsciiLetter(key[0]) }

  /** What the buffer keeps after an append: its last `MaxText` characters. */
  function KeepLast(s: string): (r: string)
    ensures |r| == if |s| > MaxText then MaxText else |s|
    ensures r == s[|s| - |r|..]
  {
    if |s| > MaxText then s[|s| - MaxText..] else s
  }

  /** What one key asks the handler to do. */
  datatype Action =
    | Append(letter: char)
    | DeleteLast
    | Paint(colour: string)
    | MoveUp | MoveDown
    | RotateLeft | RotateRight
    | Grow | Shrink
    | Reset
    | Ignore

  /**
   * Sorts a key value into the one branch of the handler it triggers:
   * exactly the letter keys append, always in upper case, and exactly the
   * colour table's keys paint, always with one of the table's colours.
   */
  function Classify(key: string): (a: Action)
    ensures a.Append? <==> IsLetterKey(key)
    ensures a.Append? ==> IsUpperLetter(a.letter) && a.letter == UpperOf(key[0])
    ensures a.Paint? <==> key in Colours
    ensures a.Paint? ==> a.colour == Colours[key]
    ensures a == Reset <==> key == " "
  {
    ColourKeys();
    if IsLetterKey(key) then Append(UpperOf(key[0]))
    else if key == "Backspace" then DeleteLast
    else if key in Colours then Paint(Colours[key])
    else if key == "ArrowUp" then MoveUp
    else if key == "ArrowDown" then MoveDown
    else if key == "ArrowLeft" then RotateLeft
    else if key == "ArrowRight" then RotateRight
    else if key == "=" || key == "+" then Grow
    else if key == "-" then Shrink
    else if key == " " then Reset
    else Ignore
  }

  function Min(a: int, b: int): int { if a <= b then a else b }
  function Max(a: int, b: int): int { if a >= b then a else b }

  /** The effect of one action on the state. */
  function Apply(b: Box, a: Action): Box
  {
    match a
    case Append(c) => b.(text := KeepLast(b.text + [c]))
    case DeleteLast => if |b.text| > 0 then b.(text := b.text[..|b.text| - 1]) else b
    case Paint(c) => b.(colour := Some(c))
    case MoveUp => b.(y := b.y - MoveStep)
    case MoveDown => b.(y := b.y + MoveStep)
    case RotateLeft => b.(rotation := b.rotation - RotateStep)
    case RotateRight => b.(rotation := b.rotation + RotateStep)
    case Grow => b.(scale := Min(MaxScale, b.scale + 1))
    case Shrink => b.(scale := Max(MinScale, b.scale - 1))
    case Reset => Box("", 0, 0, InitialScale, 0, Some(ResetColour))
    case Ignore => b
  }

  /** The state after the handler has processed one key. */
  function Step(b: Box, key: string): Box
  {
    Apply(b, Classify(key))
  }

  // The handler as it is written, in four stages: each of its tests is
  // applied in turn to the state the previous ones left.

  /** Letter keys, then Backspace. */
  function TextStage(b: Box, key: string): Box
  {
    var b := if IsLetterKey(key) then b.(text := KeepLast(b.text + [UpperOf(key[0])])) else b;
    if key == "Backspace" && |b.text| > 0 then b.(text := b.text[..|b.text| - 1]) else b
  }

  /** The colour table, then the four arrows. */
  function StyleStage(b: Box, key: string): Box
  {
    var b := if key in Colours then b.(colour := Some(Colours[key])) else b;
    var b := if key == "ArrowUp" then b.(y := b.y - MoveStep) else b;
    var b := if key == "ArrowDown" then b.(y := b.y + MoveStep) else b;
    var b := if key == "ArrowLeft" then b.(rotation := b.rotation - RotateStep) else b;
    if key == "ArrowRight" then b.(rotation := b.rotation + RotateStep) else b
  }

  /** `=` or `+`, then `-`. */
  function ScaleStage(b: Box, key: string): Box
  {
    var b := if key == "=" || key == "+" then b.(scale := Min(MaxScale, b.scale + 1)) else b;
    if key == "-" then b.(scale := Max(MinScale, b.scale - 1)) else b
  }

  /** Space. */
  function ResetStage(b: Box, key: string): Box
  {
    if key == " " then Box("", 0, 0, InitialScale, 0, Some(ResetColour)) else b
  }

  function Handle(b: Box, key: string): Box
  {
    ResetStage(ScaleStage(StyleStage(TextStage(b, key), key), key), key)
  }

  /** The last three stages leave the state alone for a key none of their tests accepts. */
  lemma QuietStages(b: Box, key: string)
    requires key !in Colours && key !in {"ArrowUp", "ArrowDown", "ArrowLeft", "ArrowRight", "=", "+", "-", " "}
    ensures ResetStage(ScaleStage(StyleStage(b, key), key), key) == b
  {
  }

  /** No key passes more than one of the handler's tests, so it acts as a dispatch on the key. */
  lemma HandleIsStep(b: Box, key: string)
    ensures Handle(b, key) == Step(b, key)
  {
    ColourKeys();
    if IsLetterKey(key) {
      assert key != "Backspace" && key !in Colours;
      QuietStages(TextStage(b, key), key);
    } else if key == "Backspace" {
      QuietStages(TextStage(b, key), key);
    } else if key in Colours {
      assert |key| == 1 && !IsAsciiLetter(key[0]);
      assert key !in {"ArrowUp", "ArrowDown", "ArrowLeft", "ArrowRight", "=", "+", "-", " "};
      assert TextStage(b, key) == b;
    } else {
      assert TextStage(b, key) == b;
    }
  }

  /** The state after a sequence of keys, in order. */
  function Run(b: Box, keys: seq<string>): Box
    decreases |keys|
  {
    if keys == [] then b else Run(Step(b, keys[0]), keys[1..])
  }

  /**
   * What holds of every state the page can reach: at most twenty letters,
   * all upper-case, the scale within its clamp, and X never off zero.
   */
  predicate Inv(b: Box)
  {
    && |b.text| <= MaxText
    && (forall i :: 0 <= i < |b.text| ==> IsUpperLetter(b.text[i]))
    && MinScale <= b.scale <= MaxScale
    && b.x == 0
  }

  lemma InitialInv()
    ensures Inv(Initial)
  {
  }

  /** Every action the handler can be asked for keeps the invariant. */
  lemma ApplyInv(b: Box, a: Action)
    requires Inv(b)
    requires a.Append? ==> IsUpperLetter(a.letter)
    ensures Inv(Apply(b, a))
  {
    if a.Append? {
      var s := b.text + [a.letter];
      var r := KeepLast(s);
      forall i | 0 <= i < |r| ensures IsUpperLetter(r[i]) {
        assert r[i] == s[|s| - |r| + i];
      }
    }
  }

  /** Every key keeps the invariant. */
  lemma StepInv(b: Box, key: string)
    requires Inv(b)
    ensures Inv(Step(b, key))
  {
    ApplyInv(b, Classify(key));
  }

  /** Whatever keys are pressed, in whatever order, the invariant holds; in particular X stays 0. */
  lemma {:induction false} RunInv(b: Box, keys: seq<string>)
    requires Inv(b)
    ensures Inv(Run(b, keys))
    ensures Run(b, keys).x == 0
    decreases |keys|
  {
    if keys != [] {
      StepInv(b, keys[0]);
      RunInv(Step(b, keys[0]), keys[1..]);
    }
  }

  lemma ReachableInv(keys: seq<string>)
    ensures Inv(Run(Initial, keys))
    ensures MinScale <= Run(Initial, keys).scale <= MaxScale
  {
    RunInv(Initial, keys);
  }

  /**
   * A letter key appends its upper-case form; when twenty letters were
   * already there, the oldest one is dropped. Nothing else changes.
   */
  lemma LetterKey(b: Box, key: string)
    requires Inv(b) && IsLetterKey(key)
    ensures var u := UpperOf(key[0]);
      && IsUpperLetter(u)
      && ('A' <= key[0] <= 'Z' ==> u == key[0])
      && ('a' <= key[0] <= 'z' ==> u as int == key[0] as int - 32)
      && Step(b, key).text == (if |b.text| < MaxText then b.text + [u] else b.text[1..] + [u])
      && Step(b, key) == b.(text := Step(b, key).text)
  {
    var s := b.text + [UpperOf(key[0])];
    if |b.text| == MaxText {
      assert s[1..] == b.text[1..] + [UpperOf(key[0])];
    }
  }

  /** Backspace removes exactly the last letter, and does nothing on an empty buffer. */
  lemma BackspaceKey(b: Box)
    ensures b.text == [] ==> Step(b, "Backspace") == b
    ensures b.text != [] ==>
      && Step(b, "Backspace").text + [b.text[|b.text| - 1]] == b.text
      && Step(b, "Backspace") == b.(text := Step(b, "Backspace").text)
  {
    assert !IsLetterKey("Backspace");
  }

  /** Backspace undoes a letter typed on a buffer that was not yet full. */
  lemma BackspaceUndoesLetter(b: Box, key: string)
    requires IsLetterKey(key) && |b.text| < MaxText
    ensures Step(Step(b, key), "Backspace") == b
  {
    var t := Step(b, key).text;
    assert t == b.text + [UpperOf(key[0])];
    assert t[..|t| - 1] == b.text;
    assert !IsLetterKey("Backspace");
  }

  /** The arrow keys move and turn the box by fixed steps and change nothing else. */
  lemma ArrowKeys(b: Box)
    ensures Step(b, "ArrowUp") == b.(y := b.y - 10)
    ensures Step(b, "ArrowDown") == b.(y := b.y + 10)
    ensures Step(b, "ArrowLeft") == b.(rotation := b.rotation - 15)
    ensures Step(b, "ArrowRight") == b.(rotation := b.rotation + 15)
  {
    assert !IsLetterKey("ArrowUp") && !IsLetterKey("ArrowDown");
    assert !IsLetterKey("ArrowLeft") && !IsLetterKey("ArrowRight");
  }

  /** Opposite arrows cancel each other out. */
  lemma ArrowsCancel(b: Box)
    ensures Step(Step(b, "ArrowUp"), "ArrowDown") == b
    ensures Step(Step(b, "ArrowDown"), "ArrowUp") == b
    ensures Step(Step(b, "ArrowLeft"), "ArrowRight") == b
    ensures Step(Step(b, "ArrowRight"), "ArrowLeft") == b
  {
    ArrowKeys(b);
    ArrowKeys(b.(y := b.y - 10));
    ArrowKeys(b.(y := b.y + 10));
    ArrowKeys(b.(rotation := b.rotation - 15));
    ArrowKeys(b.(rotation := b.rotation + 15));
  }

  /**
   * `=` and `+` raise the scale by a tenth up to 2, `-` lowers it by a
   * tenth down to 0.5; only the scale changes.
   */
  lemma ScaleKeys(b: Box)
    requires Inv(b)
    ensures Step(b, "=") == Step(b, "+")
    ensures Step(b, "+") == b.(scale := Step(b, "+").scale)
    ensures Step(b, "-") == b.(scale := Step(b, "-").scale)
    ensures b.scale < MaxScale ==> Step(b, "+").scale == b.scale + 1
    ensures b.scale == MaxScale ==> Step(b, "+").scale == MaxScale
    ensures b.scale > MinScale ==> Step(b, "-").scale == b.scale - 1
    ensures b.scale == MinScale ==> Step(b, "-").scale == MinScale
  {
    ColourKeys();
    assert Classify("=") == Grow;
    assert Classify("+") == Grow;
    assert Classify("-") == Shrink;
  }

  /** Below the cap, `-` undoes `+`; above the floor, `+` undoes `-`. */
  lemma ScaleKeysCancel(b: Box)
    requires Inv(b)
    ensures b.scale < MaxScale ==> Step(Step(b, "+"), "-") == b
    ensures b.scale > MinScale ==> Step(Step(b, "-"), "+") == b
  {
    ScaleKeys(b);
    StepInv(b, "+");
    StepInv(b, "-");
    ScaleKeys(Step(b, "+"));
    ScaleKeys(Step(b, "-"));
  }

  /**
   * Space empties the text, puts the box back at the origin, unrotated at
   * scale 1, paints it purple, and forgets everything before; pressing it
   * again changes nothing.
   */
  lemma SpaceKey(b: Box, other: Box)
    ensures var r := Step(b, " ");
      && r.text == [] && r.x == 0 && r.y == 0 && r.scale == InitialScale && r.rotation == 0
      && r.colour == Some("#9b59b6")
    ensures Step(b, " ") == Step(other, " ")
    ensures Step(Step(b, " "), " ") == Step(b, " ")
  {
    assert !IsLetterKey(" ");
  }

  /** The colour table has exactly the digits 1 to 9 as keys. */
  lemma ColourKeys()
    ensures Colours.Keys == {"1", "2", "3", "4", "5", "6", "7", "8", "9"}
    ensures "0" !in Colours
  {
  }

  /** A digit 1 to 9 paints the box with its table colour and changes nothing else. */
  lemma DigitKey(b: Box, key: string)
    requires key in Colours
    ensures Step(b, key) == b.(colour := Some(Colours[key]))
    ensures key == "1" ==> Step(b, key).colour == Some("#e74c3c")
    ensures key == "9" ==> Step(b, key).colour == Some("#795548")
  {
    assert key in {"1", "2", "3", "4", "5", "6", "7", "8", "9"};
    assert !IsLetterKey(key);
  }

  /** A key that none of the handler's branches recognises leaves the state unchanged. */
  lemma OtherKey(b: Box, key: string)
    requires !IsLetterKey(key) && key !in Colours
    requires key !in {"Backspace", "ArrowUp", "ArrowDown", "ArrowLeft", "ArrowRight", "=", "+", "-", " "}
    ensures Step(b, key) == b
  {
  }

  /** The zero digit and a modifier key are two such keys. */
  lemma ZeroAndShiftIgnored(b: Box)
    ensures Step(b, "0") == b
    ensures Step(b, "Shift") == b
  {
    ColourKeys();
    assert !IsLetterKey("0") && !IsLetterKey("Shift");
    assert "Shift" !in Colours;
  }

  /** The page's module-level state, updated in place by the key handler. */
  class KeyboardPlayground {
    var currentText: string
    var boxX: int
    var boxY: int
    var boxScale: int
    var boxRotation: int
    var colour: Option<string>

    /** The current state as a value. */
    function State(): Box
      reads this
    {
      Box(currentText, boxX, boxY, boxScale, boxRotation, colour)
    }

    predicate Valid()
      reads this
    {
      Inv(State())
    }

    constructor ()
      ensures State() == Initial
      ensures Valid()
    {
      currentText := "";
      boxX := 0;
      boxY := 0;
      boxScale := InitialScale;
      boxRotation := 0;
      colour := None;
    }

    /** One `keydown` event: each branch of the handler tested in turn. */
    method HandleKey(key: string)
      modifies this
      ensures State() == Step(old(State()), key)
      ensures old(Valid()) ==> Valid()
    {
      ghost var before := State();
      EditText(key);
      Restyle(key);
      Rescale(key);
      ResetOnSpace(key);
      HandleIsStep(before, key);
      if Inv(before) {
        StepInv(before, key);
      }
    }

    /** The letter and Backspace branches. */
    method EditText(key: string)
      modifies this
      ensures State() == TextStage(old(State()), key)
    {
      if |key| == 1 && IsAsciiLetter(key[0]) {
        currentText := currentText + [UpperOf(key[0])];
        if |currentText| > MaxText {
          currentText := currentText[|currentText| - MaxText..];
        }
      }
      if key == "Backspace" && |currentText| > 0 {
        currentText := currentText[..|currentText| - 1];
      }
    }

    /** The colour-table and arrow branches. */
    method Restyle(key: string)
      modifies this
      ensures State() == StyleStage(old(State()), key)
    {
      if key in Colours {
        colour := Some(Colours[key]);
      }
      if key == "ArrowUp" {
        boxY := boxY - MoveStep;
      }
      if key == "ArrowDown" {
        boxY := boxY + MoveStep;
      }
      if key == "ArrowLeft" {
        boxRotation := boxRotation - RotateStep;
      }
      if key == "ArrowRight" {
        boxRotation := boxRotation + RotateStep;
      }
    }

    /** The `=`/`+` and `-` branches. */
    method Rescale(key: string)
      modifies this
      ensures State() == ScaleStage(old(State()), key)
    {
      if key == "=" || key == "+" {
        boxScale := Min(MaxScale, boxScale + 1);
      }
      if key == "-" {
        boxScale := Max(MinScale, boxScale - 1);
      }
    }

    /** The space branch. */
    method ResetOnSpace(key: string)
      modifies this
      ensures State() == ResetStage(old(State()), key)
    {
      if key == " " {
        currentText := "";
        boxX := 0;
        boxY := 0;
        boxScale := InitialScale;
        boxRotation := 0;
        colour := Some(ResetColour);
      }
    }
  }
}
