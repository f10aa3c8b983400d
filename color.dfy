/**
 * `Color`: a colour in the RGBA space with components in [0, 1], its
 * revival from JSON, its CSS form and its JSON form. Numbers are reals, so
 * NaN, infinities and rounding of binary fractions are not modelled.
 */
module Colors {
  import opened Json

  /** A colour. */
  datatype Color = Color(red: real, green: real, blue: real, alpha: real)

  predicate InUnit(x: real)
  {
    0.0 <= x <= 1.0
  }

  /** Every component lies in [0, 1], as the constructor documents. */
  predicate ValidColor(c: Color)
  {
    InUnit(c.red) && InUnit(c.green) && InUnit(c.blue) && InUnit(c.alpha)
  }

  // ----- revive -----

  /** The keys `revive` reads, in the order it reads them. */
  const ColorKeys: seq<string> := ["red", "green", "blue", "alpha"]

  /** A property value `componentOf` accepts: absent, or a number in [0, 1]. */
  predicate Acceptable(v: Json)
  {
    v.JUndefined? || (v.JNumber? && InUnit(v.n))
  }

  /** `e` is the error `componentOf` throws for the value `v` under `key`. */
  predicate Rejects(e: ReviveError, key: string, v: Json)
  {
    || (e == NotANumber(key, v) && !v.JUndefined? && !v.JNumber?)
    || (v.JNumber? && e == OutOfRange(key, v.n) && !InUnit(v.n))
  }

  /** The value a property yields: the default when it is absent. */
  function ValueOr(v: Json, defaultValue: real): real
  {
    if v.JNumber? then v.n else defaultValue
  }

  /** `componentOf(raw, key, defaultValue)`. */
  function ComponentOf(raw: Json, key: string, defaultValue: real): (r: Revived<real>)
    requires raw.JObject?
    ensures r.Valid? <==> Acceptable(Get(raw, key))
    ensures r.Valid? ==> r.value == ValueOr(Get(raw, key), defaultValue)
    ensures r.Invalid? ==> Rejects(r.error, key, Get(raw, key))
  {
    var rawComponent := Get(raw, key);
    if rawComponent.JUndefined? then Valid(defaultValue)
    else if !rawComponent.JNumber? then Invalid(NotANumber(key, rawComponent))
    else if rawComponent.n < 0.0 || rawComponent.n > 1.0 then Invalid(OutOfRange(key, rawComponent.n))
    else Valid(rawComponent.n)
  }

  /** `Color.revive(raw)`: the components are read in the order red, green,
      blue, alpha, and the first one rejected decides the error. */
  function Revive(raw: Json): (r: Revived<Color>)
    ensures !raw.JObject? ==> r == Invalid(NotAnObject(raw))
    ensures r.Valid? <==> (raw.JObject? && Acceptable(Get(raw, "red")) && Acceptable(Get(raw, "green"))
                          && Acceptable(Get(raw, "blue")) && Acceptable(Get(raw, "alpha")))
    ensures r.Valid? ==> ValidColor(r.value)
    ensures r.Valid? ==> r.value == Color(
      ValueOr(Get(raw, "red"), 0.0), ValueOr(Get(raw, "green"), 0.0),
      ValueOr(Get(raw, "blue"), 0.0), ValueOr(Get(raw, "alpha"), 1.0))
  {
    if !raw.JObject? then Invalid(NotAnObject(raw))
    else
      var red := ComponentOf(raw, "red", 0.0);
      if red.Invalid? then Invalid(red.error) else
      var green := ComponentOf(raw, "green", 0.0);
      if green.Invalid? then Invalid(green.error) else
      var blue := ComponentOf(raw, "blue", 0.0);
      if blue.Invalid? then Invalid(blue.error) else
      var alpha := ComponentOf(raw, "alpha", 1.0);
      if alpha.Invalid? then Invalid(alpha.error) else
      Valid(Color(red.value, green.value, blue.value, alpha.value))
  }

  /** `Color.revive({})` is opaque black. */
  lemma ReviveDefaults()
    ensures Revive(JObject(map[])) == Valid(Color(0.0, 0.0, 0.0, 1.0))
  {
  }

  /** A rejected object names the first key, in reading order, whose value
      is not acceptable, and the error fits that value: a non-number gives
      `NotANumber`, a number outside [0, 1] gives `OutOfRange`. */
  lemma ReviveReportsFirstRejected(raw: Json)
    requires raw.JObject? && Revive(raw).Invalid?
    ensures exists i :: (0 <= i < 4
                         && Rejects(Revive(raw).error, ColorKeys[i], Get(raw, ColorKeys[i]))
                         && (forall j :: 0 <= j < i ==> Acceptable(Get(raw, ColorKeys[j]))))
  {
    var e := Revive(raw).error;
    if !Acceptable(Get(raw, "red")) {
      assert Rejects(e, ColorKeys[0], Get(raw, ColorKeys[0]));
    } else if !Acceptable(Get(raw, "green")) {
      assert Rejects(e, ColorKeys[1], Get(raw, ColorKeys[1]));
    } else if !Acceptable(Get(raw, "blue")) {
      assert Rejects(e, ColorKeys[2], Get(raw, ColorKeys[2]));
    } else {
      assert Rejects(e, ColorKeys[3], Get(raw, ColorKeys[3]));
      assert forall j :: 0 <= j < 3 ==> Acceptable(Get(raw, ColorKeys[j])) by {
        assert ColorKeys[..3] == ["red", "green", "blue"];
      }
    }
  }

  // ----- rgbComponents -----

  /** `Math.round`: the integer nearest to `x`, halves rounded up. */
  function Round(x: real): (r: int)
    ensures r as real - 0.5 <= x < r as real + 0.5
  {
    (x + 0.5).Floor
  }

  /** One component scaled to the 0..255 range of CSS. */
  function Scale(component: real): (v: int)
    ensures InUnit(component) ==> 0 <= v <= 255
  {
    Round(component * 255.0)
  }

  function Channels(c: Color): seq<real>
  {
    [c.red, c.green, c.blue]
  }

  /** What `rgbComponents` computes. */
  function Rgb(c: Color): (rgb: seq<int>)
    ensures |rgb| == 3
    ensures forall i :: 0 <= i < 3 ==> rgb[i] as real - 0.5 <= Channels(c)[i] * 255.0 < rgb[i] as real + 0.5
    ensures ValidColor(c) ==> forall i :: 0 <= i < 3 ==> 0 <= rgb[i] <= 255
  {
    [Scale(c.red), Scale(c.green), Scale(c.blue)]
  }

  /** `rgbComponents`: copy red, green and blue into a three-slot buffer and
      scale each slot in place. */
  method RgbComponents(c: Color) returns (rgb: seq<int>)
    ensures rgb == Rgb(c)
  {
    var components := new real[3];
    components[0], components[1], components[2] := c.red, c.green, c.blue;
    for i := 0 to components.Length
      invariant forall j :: 0 <= j < i ==> components[j] == Scale(Channels(c)[j]) as real
      invariant forall j :: i <= j < 3 ==> components[j] == Channels(c)[j]
    {
      components[i] := Round(components[i] * 255.0) as real;
    }
    rgb := [components[0].Floor, components[1].Floor, components[2].Floor];
  }

  // ----- cssColor, toString, toJSON -----

  /** The numbers `cssColor` interpolates: the scaled components, then
      alpha unless it is 1. */
  function CssNumbers(c: Color): seq<real>
  {
    var rgb := Rgb(c);
    [rgb[0] as real, rgb[1] as real, rgb[2] as real] + (if c.alpha == 1.0 then [] else [c.alpha])
  }

  /** `cssColor`: `rgb(r, g, b)` for an opaque colour, `rgba(r, g, b, alpha)`
      otherwise. */
  function CssColor(c: Color): (text: seq<Piece>)
    ensures |text| > 0 && text[0] == (if c.alpha == 1.0 then Lit("rgb(") else Lit("rgba("))
    ensures Numbers(text) == CssNumbers(c)
  {
    var open := if c.alpha == 1.0 then "rgb(" else "rgba(";
    var text := [Lit(open)] + Join(CssNumbers(c), ", ") + [Lit(")")];
    NumbersAppend([Lit(open)], Join(CssNumbers(c), ", "));
    NumbersAppend([Lit(open)] + Join(CssNumbers(c), ", "), [Lit(")")]);
    NumbersOfJoin(CssNumbers(c), ", ");
    text
  }

  /** Written out with any number-to-string conversion, the CSS text is the
      functional notation with comma-separated components. */
  lemma CssColorRendering(c: Color, format: real -> string)
    ensures var rgb := Rgb(c);
      var (r, g, b) := (format(rgb[0] as real), format(rgb[1] as real), format(rgb[2] as real));
      Render(CssColor(c), format) ==
        if c.alpha == 1.0 then "rgb(" + r + ", " + g + ", " + b + ")"
        else "rgba(" + r + ", " + g + ", " + b + ", " + format(c.alpha) + ")"
  {
    var rgb := Rgb(c);
    var open := if c.alpha == 1.0 then "rgb(" else "rgba(";
    var joined := Join(CssNumbers(c), ", ");
    RenderAppend([Lit(open)], joined, format);
    RenderAppend([Lit(open)] + joined, [Lit(")")], format);
    assert Render([Lit(open)], format) == open;
    assert Render([Lit(")")], format) == ")";
    assert Render(CssColor(c), format) == open + Render(joined, format) + ")";
    if c.alpha == 1.0 {
      assert CssNumbers(c) == [rgb[0] as real, rgb[1] as real, rgb[2] as real];
      RenderJoinThree(rgb[0] as real, rgb[1] as real, rgb[2] as real, ", ", format);
    } else {
      assert CssNumbers(c) == [rgb[0] as real, rgb[1] as real, rgb[2] as real, c.alpha];
      RenderJoinFour(rgb[0] as real, rgb[1] as real, rgb[2] as real, c.alpha, ", ", format);
    }
  }

  /** The two cases the test suite checks: white is `rgb(255, 255, 255)` and
      half-transparent black is `rgba(0, 0, 0, 0.5)`. */
  lemma CssColorExamples(format: real -> string)
    ensures Render(CssColor(Color(1.0, 1.0, 1.0, 1.0)), format)
      == "rgb(" + format(255.0) + ", " + format(255.0) + ", " + format(255.0) + ")"
    ensures Render(CssColor(Color(0.0, 0.0, 0.0, 0.5)), format)
      == "rgba(" + format(0.0) + ", " + format(0.0) + ", " + format(0.0) + ", " + format(0.5) + ")"
  {
    assert Rgb(Color(1.0, 1.0, 1.0, 1.0)) == [255, 255, 255] by { assert Scale(1.0) == 255; }
    assert Rgb(Color(0.0, 0.0, 0.0, 0.5)) == [0, 0, 0] by { assert Scale(0.0) == 0; }
    CssColorRendering(Color(1.0, 1.0, 1.0, 1.0), format);
    CssColorRendering(Color(0.0, 0.0, 0.0, 0.5), format);
  }

  /** `toString()` is the CSS form: written out with any number-to-string
      conversion, `rgb(r, g, b)` for an opaque colour and
      `rgba(r, g, b, alpha)` otherwise. */
  function ToString(c: Color): (text: seq<Piece>)
    ensures forall format: real -> string :: (Render(text, format) == (
      if c.alpha == 1.0
      then "rgb(" + format(Rgb(c)[0] as real) + ", " + format(Rgb(c)[1] as real) + ", " + format(Rgb(c)[2] as real) + ")"
      else ("rgba(" + format(Rgb(c)[0] as real) + ", " + format(Rgb(c)[1] as real) + ", " + format(Rgb(c)[2] as real)
            + ", " + format(c.alpha) + ")")))
  {
    assert forall format: real -> string :: (Render(CssColor(c), format) == (
      if c.alpha == 1.0
      then "rgb(" + format(Rgb(c)[0] as real) + ", " + format(Rgb(c)[1] as real) + ", " + format(Rgb(c)[2] as real) + ")"
      else ("rgba(" + format(Rgb(c)[0] as real) + ", " + format(Rgb(c)[1] as real) + ", " + format(Rgb(c)[2] as real)
            + ", " + format(c.alpha) + ")")))
    by {
      forall format: real -> string {
        CssColorRendering(c, format);
      }
    }
    CssColor(c)
  }

  /** `toJSON()`: an object with exactly the four components. */
  function ToJson(c: Color): (raw: Json)
    ensures raw.JObject? && raw.fields.Keys == {"red", "green", "blue", "alpha"}
    ensures Get(raw, "red") == JNumber(c.red) && Get(raw, "green") == JNumber(c.green)
    ensures Get(raw, "blue") == JNumber(c.blue) && Get(raw, "alpha") == JNumber(c.alpha)
  {
    JObject(map["red" := JNumber(c.red), "green" := JNumber(c.green),
                "blue" := JNumber(c.blue), "alpha" := JNumber(c.alpha)])
  }

  /** Reviving the JSON form of a valid colour gives the colour back. */
  lemma ReviveToJson(c: Color)
    requires ValidColor(c)
    ensures Revive(ToJson(c)) == Valid(c)
  {
    var raw := ToJson(c);
    assert forall i :: 0 <= i < 4 ==> Acceptable(Get(raw, ColorKeys[i]));
  }

  /** What `revive` accepts survives a trip through `toJSON` unchanged. */
  lemma ReviveIsStable(raw: Json)
    requires Revive(raw).Valid?
    ensures Revive(ToJson(Revive(raw).value)) == Revive(raw)
  {
    ReviveToJson(Revive(raw).value);
  }

  /** Only valid colours survive the round trip: an invalid one is rejected. */
  lemma ReviveToJsonRejectsInvalid(c: Color)
    requires !ValidColor(c)
    ensures Revive(ToJson(c)).Invalid?
  {
  }
}
