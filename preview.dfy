/**
 * The preview screen: integer rotation about two axes in 15 degree steps, a
 * clamped zoom factor, a reset, the print specification table and the
 * camelCase-key-to-label transform used for both of its tables.
 */
module PreviewPage {
  import DesignStudioPage

  datatype Axis = X | Y

  /** `rotation` (degrees about x and y) and `zoom`. */
  datatype ViewState = ViewState(rotX: int, rotY: int, zoom: real)

  const InitialView := ViewState(0, 0, 1.0)

  /** Degrees per rotate click. */
  const RotateStep := 15

  const MinZoom := 0.5
  const MaxZoom := 3.0
  const ZoomStep := 0.2

  /** Rotating about one axis by `direction` steps; the other axis and the zoom are kept. */
  function Rotate(v: ViewState, axis: Axis, direction: int): (r: ViewState)
    ensures axis == X ==> r.rotX == v.rotX + direction * RotateStep && r.rotY == v.rotY
    ensures axis == Y ==> r.rotY == v.rotY + direction * RotateStep && r.rotX == v.rotX
    ensures r.zoom == v.zoom
  {
    match axis
    case X => v.(rotX := v.rotX + direction * RotateStep)
    case Y => v.(rotY := v.rotY + direction * RotateStep)
  }

  /** A click one way and a click back restore the view. */
  lemma RotateBackRestores(v: ViewState, axis: Axis)
    ensures Rotate(Rotate(v, axis, 1), axis, -1) == v
    ensures Rotate(Rotate(v, axis, -1), axis, 1) == v
  {
  }

  /** `Math.max(0.5, Math.min(3, zoom + direction * 0.2))`, on exact reals. */
  function ZoomBy(zoom: real, direction: int): (z: real)
    ensures MinZoom <= z <= MaxZoom
    ensures MinZoom <= zoom + direction as real * ZoomStep <= MaxZoom ==> z == zoom + direction as real * ZoomStep
    ensures zoom + direction as real * ZoomStep > MaxZoom ==> z == MaxZoom
    ensures zoom + direction as real * ZoomStep < MinZoom ==> z == MinZoom
  {
    var wanted := zoom + direction as real * ZoomStep;
    var capped := if MaxZoom < wanted then MaxZoom else wanted;
    if MinZoom < capped then capped else MinZoom
  }

  /** The reset button: rotation (0, 0) and zoom 1 from any view. */
  function Reset(v: ViewState): (r: ViewState)
    ensures r.rotX == 0 && r.rotY == 0 && r.zoom == 1.0
  {
    InitialView
  }

  lemma ResetIdempotent(v: ViewState)
    ensures Reset(Reset(v)) == Reset(v) == InitialView
  {
  }

  /** ECMAScript white space and line terminators: what `String.prototype.trim` removes. */
  predicate IsWhitespace(c: char)
  {
    var n := c as int;
    n == 0x09 || n == 0x0A || n == 0x0B || n == 0x0C || n == 0x0D || n == 0x20 || n == 0xA0 ||
    n == 0x1680 || (0x2000 <= n <= 0x200A) || n == 0x2028 || n == 0x2029 || n == 0x202F ||
    n == 0x205F || n == 0x3000 || n == 0xFEFF
  }

  /** The regex class `[A-Z]`. */
  predicate IsUpper(c: char)
  {
    'A' <= c <= 'Z'
  }

  function CountUpper(s: string): nat
  {
    if s == [] then 0 else (if IsUpper(s[0]) then 1 else 0) + CountUpper(s[1..])
  }

  /** `s` with every space removed. */
  function RemoveSpaces(s: string): string
  {
    if s == [] then [] else (if s[0] == ' ' then [] else [s[0]]) + RemoveSpaces(s[1..])
  }

  /** The only white space in `s` is the plain space. */
  predicate OnlySpaces(s: string)
  {
    forall i :: 0 <= i < |s| && IsWhitespace(s[i]) ==> s[i] == ' '
  }

  /** `replace(/([A-Z])/g, ' $1')`: one space inserted before each upper-case letter. */
  function SpaceBeforeUpper(s: string): (r: string)
    ensures |r| == |s| + CountUpper(s)
  {
    if s == [] then []
    else (if IsUpper(s[0]) then [' ', s[0]] else [s[0]]) + SpaceBeforeUpper(s[1..])
  }

  /** Removing spaces after the replace gives what removing them before gave. */
  lemma {:induction false} SpaceBeforeUpperRemoveSpaces(s: string)
    ensures RemoveSpaces(SpaceBeforeUpper(s)) == RemoveSpaces(s)
  {
    if s != [] {
      var rest := SpaceBeforeUpper(s[1..]);
      SpaceBeforeUpperRemoveSpaces(s[1..]);
      if IsUpper(s[0]) {
        var r := [' ', s[0]] + rest;
        assert r[1..] == [s[0]] + rest;
        assert ([s[0]] + rest)[1..] == rest;
      } else {
        assert ([s[0]] + rest)[1..] == rest;
      }
    }
  }

  /** The replace introduces no white space other than the plain space. */
  lemma {:induction false} SpaceBeforeUpperOnlySpaces(s: string)
    requires OnlySpaces(s)
    ensures OnlySpaces(SpaceBeforeUpper(s))
  {
    if s != [] {
      assert OnlySpaces(s[1..]) by {
        forall i | 0 <= i < |s[1..]| && IsWhitespace(s[1..][i]) ensures s[1..][i] == ' ' {
          assert s[1..][i] == s[i + 1];
        }
      }
      SpaceBeforeUpperOnlySpaces(s[1..]);
      var rest := SpaceBeforeUpper(s[1..]);
      var c := if IsUpper(s[0]) then [' ', s[0]] else [s[0]];
      var r := c + rest;
      forall i | 0 <= i < |r| && IsWhitespace(r[i]) ensures r[i] == ' ' {
        if i >= |c| {
          assert r[i] == rest[i - |c|];
        }
      }
    }
  }

  /** The replace keeps the last character, and a first character that is not upper-case. */
  lemma {:induction false} SpaceBeforeUpperEnds(s: string)
    requires s != []
    ensures !IsUpper(s[0]) ==> SpaceBeforeUpper(s)[0] == s[0]
    ensures SpaceBeforeUpper(s)[|SpaceBeforeUpper(s)| - 1] == s[|s| - 1]
    decreases |s|
  {
    var rest := SpaceBeforeUpper(s[1..]);
    var c := if IsUpper(s[0]) then [' ', s[0]] else [s[0]];
    var r := c + rest;
    assert SpaceBeforeUpper(s) == r;
    assert r[0] == c[0];
    if |s| == 1 {
      assert s[1..] == [];
      assert r == c;
    } else {
      SpaceBeforeUpperEnds(s[1..]);
      assert r[|r| - 1] == rest[|rest| - 1];
      assert s[1..][|s[1..]| - 1] == s[|s| - 1];
    }
  }

  /** The replace inserts nothing but spaces and keeps the text around them. */
  lemma SpaceBeforeUpperKeepsText(s: string)
    ensures RemoveSpaces(SpaceBeforeUpper(s)) == RemoveSpaces(s)
    ensures OnlySpaces(s) ==> OnlySpaces(SpaceBeforeUpper(s))
    ensures s != [] && !IsUpper(s[0]) ==> SpaceBeforeUpper(s) != [] && SpaceBeforeUpper(s)[0] == s[0]
    ensures s != [] ==> SpaceBeforeUpper(s) != [] && SpaceBeforeUpper(s)[|SpaceBeforeUpper(s)| - 1] == s[|s| - 1]
  {
    SpaceBeforeUpperRemoveSpaces(s);
    if OnlySpaces(s) {
      SpaceBeforeUpperOnlySpaces(s);
    }
    if s != [] {
      SpaceBeforeUpperEnds(s);
    }
  }

  /** `trimStart`: drop leading white space. */
  function TrimStart(s: string): (r: string)
    ensures |r| <= |s| && r == s[|s| - |r|..]
    ensures r == [] || !IsWhitespace(r[0])
    ensures forall i :: 0 <= i < |s| - |r| ==> IsWhitespace(s[i])
  {
    if s != [] && IsWhitespace(s[0]) then TrimStart(s[1..]) else s
  }

  /** `trimEnd`: drop trailing white space. */
  function TrimEnd(s: string): (r: string)
    ensures |r| <= |s| && r == s[..|r|]
    ensures r == [] || !IsWhitespace(r[|r| - 1])
    ensures forall i :: |r| <= i < |s| ==> IsWhitespace(s[i])
  {
    if s != [] && IsWhitespace(s[|s| - 1]) then TrimEnd(s[..|s| - 1]) else s
  }

  /** `trim`: the middle of `s` between leading and trailing white space. */
  function Trim(s: string): (r: string)
    ensures r == [] || (!IsWhitespace(r[0]) && !IsWhitespace(r[|r| - 1]))
    ensures s == [] || (!IsWhitespace(s[0]) && !IsWhitespace(s[|s| - 1])) ==> r == s
    ensures |r| <= |s|
  {
    TrimEnd(TrimStart(s))
  }

  /**
   * `trim` keeps the input's own middle: the result is the slice of `s`
   * starting at `k`, and everything before and after it is white space.
   */
  lemma TrimKeepsMiddle(s: string) returns (k: nat)
    ensures k + |Trim(s)| <= |s| && Trim(s) == s[k..k + |Trim(s)|]
    ensures forall i :: 0 <= i < k ==> IsWhitespace(s[i])
    ensures forall i :: k + |Trim(s)| <= i < |s| ==> IsWhitespace(s[i])
  {
    var t := TrimStart(s);
    k := |s| - |t|;
    var r := TrimEnd(t);
    assert t == s[k..];
    assert r == t[..|r|];
    forall i | k + |r| <= i < |s|
      ensures IsWhitespace(s[i])
    {
      assert s[i] == t[i - k];
    }
  }

  /** The table row label for a key: `key.replace(/([A-Z])/g, ' $1').trim()`. */
  function Label(key: string): (r: string)
    ensures r == [] || (!IsWhitespace(r[0]) && !IsWhitespace(r[|r| - 1]))
    ensures |r| <= |key| + CountUpper(key)
  {
    Trim(SpaceBeforeUpper(key))
  }

  lemma {:induction false} RemoveSpacesAppend(a: string, b: string)
    ensures RemoveSpaces(a + b) == RemoveSpaces(a) + RemoveSpaces(b)
  {
    if a == [] {
      assert a + b == b;
    } else {
      assert (a + b)[1..] == a[1..] + b;
      RemoveSpacesAppend(a[1..], b);
    }
  }

  /** A string of spaces only disappears entirely. */
  lemma {:induction false} RemoveSpacesOfBlanks(s: string)
    requires forall i :: 0 <= i < |s| ==> s[i] == ' '
    ensures RemoveSpaces(s) == []
  {
    if s != [] {
      RemoveSpacesOfBlanks(s[1..]);
    }
  }

  /** Leading white space of a string whose only white space is the plain space is spaces only. */
  lemma TrimStartRemovesOnlySpaces(s: string)
    requires OnlySpaces(s)
    ensures RemoveSpaces(TrimStart(s)) == RemoveSpaces(s) && OnlySpaces(TrimStart(s))
  {
    var t := TrimStart(s);
    var lead := s[..|s| - |t|];
    assert s == lead + t;
    forall i | 0 <= i < |lead| ensures lead[i] == ' ' {
      assert lead[i] == s[i] && IsWhitespace(s[i]);
    }
    RemoveSpacesOfBlanks(lead);
    RemoveSpacesAppend(lead, t);
    forall i | 0 <= i < |t| && IsWhitespace(t[i]) ensures t[i] == ' ' {
      assert t[i] == s[|lead| + i];
    }
  }

  /** Trailing white space of a string whose only white space is the plain space is spaces only. */
  lemma TrimEndRemovesOnlySpaces(t: string)
    requires OnlySpaces(t)
    ensures RemoveSpaces(TrimEnd(t)) == RemoveSpaces(t)
  {
    var r := TrimEnd(t);
    var trail := t[|r|..];
    assert t == r + trail;
    forall i | 0 <= i < |trail| ensures trail[i] == ' ' {
      assert trail[i] == t[|r| + i] && IsWhitespace(t[|r| + i]);
    }
    RemoveSpacesOfBlanks(trail);
    RemoveSpacesAppend(r, trail);
  }

  /** Trimming a string whose only white space is the plain space removes nothing but spaces. */
  lemma TrimRemovesOnlySpaces(s: string)
    requires OnlySpaces(s)
    ensures RemoveSpaces(Trim(s)) == RemoveSpaces(s)
  {
    TrimStartRemovesOnlySpaces(s);
    TrimEndRemovesOnlySpaces(TrimStart(s));
  }

  /**
   * The label never starts or ends with white space, and for a key whose
   * only white space is the plain space, deleting spaces from the label
   * gives the key with its spaces deleted; for a key without spaces, the
   * key itself.
   */
  lemma LabelKeepsKey(key: string)
    ensures Label(key) == [] || (!IsWhitespace(Label(key)[0]) && !IsWhitespace(Label(key)[|Label(key)| - 1]))
    ensures OnlySpaces(key) ==> RemoveSpaces(Label(key)) == RemoveSpaces(key)
    ensures (forall i :: 0 <= i < |key| ==> !IsWhitespace(key[i])) ==> RemoveSpaces(Label(key)) == key
  {
    SpaceBeforeUpperKeepsText(key);
    if OnlySpaces(key) {
      TrimRemovesOnlySpaces(SpaceBeforeUpper(key));
    }
    if forall i :: 0 <= i < |key| ==> !IsWhitespace(key[i]) {
      assert OnlySpaces(key);
      TrimRemovesOnlySpaces(SpaceBeforeUpper(key));
      NoSpacesUnchanged(key);
    }
  }

  lemma {:induction false} NoSpacesUnchanged(s: string)
    requires forall i :: 0 <= i < |s| ==> s[i] != ' '
    ensures RemoveSpaces(s) == s
  {
    if s != [] {
      assert forall i :: 0 <= i < |s[1..]| ==> s[1..][i] == s[i + 1];
      NoSpacesUnchanged(s[1..]);
    }
  }

  /**
   * For a camelCase key (no white space, not starting upper-case) nothing is
   * trimmed: the label is the key with one space per upper-case letter.
   */
  lemma CamelCaseLabel(key: string)
    requires forall i :: 0 <= i < |key| ==> !IsWhitespace(key[i])
    requires key != [] ==> !IsUpper(key[0])
    ensures Label(key) == SpaceBeforeUpper(key)
    ensures |Label(key)| == |key| + CountUpper(key)
  {
    SpaceBeforeUpperKeepsText(key);
  }

  lemma {:induction false} SpaceBeforeUpperAppend(a: string, b: string)
    ensures SpaceBeforeUpper(a + b) == SpaceBeforeUpper(a) + SpaceBeforeUpper(b)
  {
    if a == [] {
      assert a + b == b;
    } else {
      var c := if IsUpper(a[0]) then [' ', a[0]] else [a[0]];
      assert (a + b)[0] == a[0];
      calc {
        SpaceBeforeUpper(a + b);
        c + SpaceBeforeUpper((a + b)[1..]);
        { assert (a + b)[1..] == a[1..] + b; }
        c + SpaceBeforeUpper(a[1..] + b);
        { SpaceBeforeUpperAppend(a[1..], b); }
        c + (SpaceBeforeUpper(a[1..]) + SpaceBeforeUpper(b));
        SpaceBeforeUpper(a) + SpaceBeforeUpper(b);
      }
    }
  }

  lemma {:induction false} NoUpperUnchanged(s: string)
    requires forall i :: 0 <= i < |s| ==> !IsUpper(s[i])
    ensures SpaceBeforeUpper(s) == s
  {
    if s != [] {
      assert forall i :: 0 <= i < |s[1..]| ==> s[1..][i] == s[i + 1];
      NoUpperUnchanged(s[1..]);
    }
  }

  /** No upper-case letter and no white space: a plain run of a camelCase key. */
  predicate Plain(s: string)
  {
    forall i :: 0 <= i < |s| ==> !IsUpper(s[i]) && !IsWhitespace(s[i])
  }

  lemma SpaceBeforeOneUpper(head: string, u: char, tail: string)
    requires IsUpper(u)
    requires forall i :: 0 <= i < |head| ==> !IsUpper(head[i])
    requires forall i :: 0 <= i < |tail| ==> !IsUpper(tail[i])
    ensures SpaceBeforeUpper(head + [u] + tail) == head + [' ', u] + tail
  {
    NoUpperUnchanged(head);
    NoUpperUnchanged(tail);
    SpaceBeforeUpperSingle(u);
    SpaceBeforeUpperAppend(head, [u]);
    SpaceBeforeUpperAppend(head + [u], tail);
  }

  lemma SpaceBeforeUpperSingle(u: char)
    requires IsUpper(u)
    ensures SpaceBeforeUpper([u]) == [' ', u]
  {
    assert [u][1..] == [];
  }

  /** A two-word camelCase key `head` + `U` + `tail` gets the label `head U tail`. */
  lemma TwoWordLabel(head: string, u: char, tail: string)
    requires head != [] && tail != [] && IsUpper(u)
    requires Plain(head) && Plain(tail)
    ensures Label(head + [u] + tail) == head + [' ', u] + tail
  {
    SpaceBeforeOneUpper(head, u, tail);
    var spaced := head + [' ', u] + tail;
    assert spaced[0] == head[0];
    assert spaced[|spaced| - 1] == tail[|tail| - 1];
  }

  /** The row label of the `archHeight` measurement. */
  lemma ArchHeightLabel(key: string)
    requires key == "archHeight"
    ensures Label(key) == "arch Height"
  {
    var head, tail := "arch", "eight";
    assert Plain(head) && Plain(tail);
    assert key == head + ['H'] + tail;
    TwoWordLabel(head, 'H', tail);
    assert head + [' ', 'H'] + tail == "arch Height";
  }

  /** The print specification card's values, in table order. */
  datatype Specifications = Specifications(
    printTime: string, material: string, infill: string,
    layerHeight: string, supports: string, estimatedCost: string)

  function SpecificationsFor(design: DesignStudioPage.DesignRecord): (spec: Specifications)
    ensures spec.material == "Flexible TPU" <==> design.material == "flexible"
    ensures spec.material == "Rigid PLA" <==> design.material == "rigid"
    ensures spec.material == "Textured PETG" <==> design.material != "flexible" && design.material != "rigid"
    ensures spec.printTime == "8-12 hours" && spec.infill == "20%" && spec.layerHeight == "0.2mm"
    ensures spec.supports == "Required" && spec.estimatedCost == "$15-25"
  {
    Specifications("8-12 hours", DesignStudioPage.MaterialLabel(design.material), "20%",
                   "0.2mm", "Required", "$15-25")
  }

  /** The preview screen's view state, updated in place by its buttons. */
  class Viewer {
    var rotation: (int, int)
    var zoom: real

    function State(): ViewState
      reads this
    {
      ViewState(rotation.0, rotation.1, zoom)
    }

    constructor ()
      ensures State() == InitialView
    {
      rotation := (0, 0);
      zoom := 1.0;
    }

    method HandleRotate(axis: Axis, direction: int)
      modifies this
      ensures State() == Rotate(old(State()), axis, direction)
      ensures axis == X ==> rotation == (old(rotation.0) + direction * RotateStep, old(rotation.1))
      ensures axis == Y ==> rotation == (old(rotation.0), old(rotation.1) + direction * RotateStep)
      ensures zoom == old(zoom)
    {
      match axis
      case X => rotation := (rotation.0 + direction * RotateStep, rotation.1);
      case Y => rotation := (rotation.0, rotation.1 + direction * RotateStep);
    }

    method HandleZoom(direction: int)
      modifies this
      ensures zoom == ZoomBy(old(zoom), direction) && rotation == old(rotation)
      ensures MinZoom <= zoom <= MaxZoom
    {
      zoom := ZoomBy(zoom, direction);
    }

    method ResetView()
      modifies this
      ensures State() == Reset(old(State())) == InitialView
      ensures rotation == (0, 0) && zoom == 1.0
    {
      rotation := (0, 0);
      zoom := 1.0;
    }
  }
}
