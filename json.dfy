/**
 * The values that the data types' `revive` functions receive and that their
 * `toJSON` functions produce, the errors `revive` throws, and the text that
 * the string-producing getters build.
 */
module Json {

  /** A JavaScript value as `revive` sees it. `JObject` is anything for which
      `typeof raw === 'object'` and `raw !== null`; a property set to
      `undefined` and a missing property read the same. */
  datatype Json =
    | JObject(fields: map<string, Json>)
    | JNumber(n: real)
    | JString(s: string)
    | JNull
    | JUndefined

  /** `raw[key]` on an object: `undefined` when the property is absent. */
  function Get(raw: Json, key: string): (v: Json)
    requires raw.JObject?
    ensures key !in raw.fields ==> v == JUndefined
  {
    if key in raw.fields then raw.fields[key] else JUndefined
  }

  /** What `revive` throws. `OutOfRange` is the one thrown as a `RangeError`. */
  datatype ReviveError =
    | NotAnObject(raw: Json)
    | NotANumber(key: string, value: Json)
    | OutOfRange(key: string, number: real)

  /** The outcome of a `revive`: the value, or the error it throws. */
  datatype Revived<+T> = Valid(value: T) | Invalid(error: ReviveError)

  /** A template literal: literal text and interpolated numbers. How a number
      is written out is left to the caller of `Render`. */
  datatype Piece = Lit(s: string) | Num(x: real)

  /** The string a template literal evaluates to, given the number-to-string
      conversion `format`. */
  function Render(text: seq<Piece>, format: real -> string): string
  {
    if text == [] then ""
    else
      var head := match text[0] case Lit(s) => s case Num(x) => format(x);
      head + Render(text[1..], format)
  }

  /** A list of numbers written out with `sep` between neighbours, as in
      `${a}${sep}${b}`. */
  function Join(xs: seq<real>, sep: string): seq<Piece>
  {
    if |xs| <= 1 then (if xs == [] then [] else [Num(xs[0])])
    else [Num(xs[0]), Lit(sep)] + Join(xs[1..], sep)
  }

  /** The numbers interpolated into a template literal, in order. */
  function Numbers(text: seq<Piece>): seq<real>
  {
    if text == [] then []
    else (if text[0].Num? then [text[0].x] else []) + Numbers(text[1..])
  }

  lemma {:induction false} RenderAppend(a: seq<Piece>, b: seq<Piece>, format: real -> string)
    ensures Render(a + b, format) == Render(a, format) + Render(b, format)
  {
    if a != [] {
      assert (a + b)[0] == a[0] && (a + b)[1..] == a[1..] + b;
      RenderAppend(a[1..], b, format);
      var head := match a[0] case Lit(s) => s case Num(x) => format(x);
      assert Render(a + b, format) == head + (Render(a[1..], format) + Render(b, format));
    } else {
      assert a + b == b;
    }
  }

  lemma {:induction false} NumbersAppend(a: seq<Piece>, b: seq<Piece>)
    ensures Numbers(a + b) == Numbers(a) + Numbers(b)
  {
    if a != [] {
      assert (a + b)[0] == a[0] && (a + b)[1..] == a[1..] + b;
      NumbersAppend(a[1..], b);
      var head := if a[0].Num? then [a[0].x] else [];
      assert Numbers(a + b) == head + (Numbers(a[1..]) + Numbers(b));
    } else {
      assert a + b == b;
    }
  }

  /** The numbers of a joined list are the list itself. */
  lemma {:induction false} NumbersOfJoin(xs: seq<real>, sep: string)
    ensures Numbers(Join(xs, sep)) == xs
  {
    if |xs| > 1 {
      NumbersAppend([Num(xs[0]), Lit(sep)], Join(xs[1..], sep));
      NumbersOfJoin(xs[1..], sep);
      assert Numbers([Num(xs[0]), Lit(sep)]) == [xs[0]];
    }
  }

  /** Joining two numbers renders as the first, the separator, the second. */
  lemma RenderJoinTwo(a: real, b: real, sep: string, format: real -> string)
    ensures Render(Join([a, b], sep), format) == format(a) + sep + format(b)
  {
    RenderAppend([Num(a), Lit(sep)], Join([b], sep), format);
    assert [a, b][1..] == [b];
  }

  /** Joining three numbers renders with the separator between neighbours. */
  lemma RenderJoinThree(a: real, b: real, c: real, sep: string, format: real -> string)
    ensures Render(Join([a, b, c], sep), format) == format(a) + sep + format(b) + sep + format(c)
  {
    RenderAppend([Num(a), Lit(sep)], Join([b, c], sep), format);
    assert [a, b, c][1..] == [b, c];
    RenderJoinTwo(b, c, sep, format);
  }

  /** Joining four numbers renders with the separator between neighbours. */
  lemma RenderJoinFour(a: real, b: real, c: real, d: real, sep: string, format: real -> string)
    ensures Render(Join([a, b, c, d], sep), format) == format(a) + sep + format(b) + sep + format(c) + sep + format(d)
  {
    RenderAppend([Num(a), Lit(sep)], Join([b, c, d], sep), format);
    assert [a, b, c, d][1..] == [b, c, d];
    RenderJoinThree(b, c, d, sep, format);
  }
}
