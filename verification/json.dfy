/** JavaScript values as the plugin sees them: the parsed frontmatter of a note, the
    parsed JSON of a provider response, and the request bodies it builds. Property
    access, optional chaining, truthiness and string conversion are modelled
    explicitly, because the code relies on each of them. */
module Js {
  import opened Wrappers
  import Text

  /** A JavaScript number, carried as the text `String(n)` renders for it. That text is
      all the program ever observes of a number: it only copies numbers, tests them
      for truthiness (`"0"` and `"NaN"` are the falsy renderings), and concatenates
      them onto strings. */
  datatype Number = Number(text: string)

  /** A JSON-like JavaScript value. `Undefined` stands for a missing property. */
  datatype Json =
    | Undefined
    | Null
    | Bool(b: bool)
    | Num(n: Number)
    | Str(s: string)
    | Arr(items: seq<Json>)
    | Obj(fields: map<string, Json>)
  {
    /** `null` or `undefined`: the values on which `.` throws and `?.` short-circuits. */
    predicate IsNullish() {
      Undefined? || Null?
    }
  }

  /** The thrown `TypeError` of reading a property of `null` or `undefined`. */
  datatype TypeError = TypeError

  /** JavaScript truthiness: `null`, `undefined`, `false`, `0`, `NaN` and `""` are
      falsy, and every array and object is truthy, even an empty one. */
  predicate Truthy(j: Json)
    ensures j.IsNullish() ==> !Truthy(j)
    ensures j.Arr? || j.Obj? ==> Truthy(j)
    ensures j.Str? ==> (Truthy(j) <==> j.s != "")
    ensures j.Bool? ==> (Truthy(j) <==> j.b)
  {
    match j
    case Undefined => false
    case Null => false
    case Bool(b) => b
    case Num(n) => n.text != "0" && n.text != "NaN"
    case Str(s) => s != ""
    case Arr(_) => true
    case Obj(_) => true
  }

  /** `j[key]` for a value that is not nullish: an object's own property, and
      `undefined` for every other value. The keys this program reads are never
      inherited, index or `length` properties, so nothing else is needed. */
  function Member(j: Json, key: string): (r: Json)
    ensures j.Obj? && key in j.fields ==> r == j.fields[key]
    ensures !(j.Obj? && key in j.fields) ==> r == Undefined
  {
    if j.Obj? && key in j.fields then j.fields[key] else Undefined
  }

  /** `j[i]` for a value that is not nullish: an array element, a one-character
      string, an object's property named by the index, or `undefined`. */
  function Element(j: Json, i: nat): Json
  {
    match j
    case Arr(items) => if i < |items| then items[i] else Undefined
    case Str(s) => if i < |s| then Str([s[i]]) else Undefined
    case Obj(fields) =>
      var key := Text.NatToString(i);
      if key in fields then fields[key] else Undefined
    case _ => Undefined
  }

  /** `j.key`: throws on `null` and `undefined`. */
  function Prop(j: Json, key: string): (r: Result<Json, TypeError>)
    ensures r.Failure? <==> j.IsNullish()
    ensures r.Success? ==> r.value == Member(j, key)
  {
    if j.IsNullish() then Failure(TypeError) else Success(Member(j, key))
  }

  /** `j[i]`: throws on `null` and `undefined`. */
  function Index(j: Json, i: nat): (r: Result<Json, TypeError>)
    ensures r.Failure? <==> j.IsNullish()
    ensures r.Success? ==> r.value == Element(j, i)
  {
    if j.IsNullish() then Failure(TypeError) else Success(Element(j, i))
  }

  /** `j?.key`: `undefined` when `j` is nullish, never throws. */
  function OptProp(j: Json, key: string): (r: Json)
    ensures j.IsNullish() ==> r == Undefined
    ensures !j.IsNullish() ==> r == Member(j, key)
  {
    if j.IsNullish() then Undefined else Member(j, key)
  }

  /** `j?.[i]`: `undefined` when `j` is nullish, never throws. */
  function OptIndex(j: Json, i: nat): (r: Json)
    ensures j.IsNullish() ==> r == Undefined
    ensures !j.IsNullish() ==> r == Element(j, i)
  {
    if j.IsNullish() then Undefined else Element(j, i)
  }

  /** `String(j)`, which is also what `text += j` appends and what a value becomes
      when used as a property key. Arrays join their elements with `","`, writing
      `null` and `undefined` elements as empty text. An object converts through the
      inherited `toString`; one with its own `toString` key would throw a TypeError
      in JavaScript, which this conversion does not model. */
  function JsString(j: Json): string
  {
    match j
    case Undefined => "undefined"
    case Null => "null"
    case Bool(b) => if b then "true" else "false"
    case Num(n) => n.text
    case Str(s) => s
    case Obj(_) => "[object Object]"
    case Arr(items) =>
      Text.Join(seq(|items|, i requires 0 <= i < |items| =>
        if items[i].IsNullish() then "" else JsString(items[i])), ",")
  }

  /** The running text `"" + f1 + f2 + ...` of a sequence of values. */
  function ConcatText(fs: seq<Json>): string
  {
    if |fs| == 0 then "" else ConcatText(fs[..|fs| - 1]) + JsString(fs[|fs| - 1])
  }

  /** Concatenation of the running text distributes over sequence concatenation. */
  lemma {:induction false} ConcatTextAppend(a: seq<Json>, b: seq<Json>)
    ensures ConcatText(a + b) == ConcatText(a) + ConcatText(b)
    decreases |b|
  {
    if |b| == 0 {
      assert a + b == a;
    } else {
      var b' := b[..|b| - 1];
      var last := JsString(b[|b| - 1]);
      assert (a + b)[..|a + b| - 1] == a + b';
      assert (a + b)[|a + b| - 1] == b[|b| - 1];
      ConcatTextAppend(a, b');
      assert ConcatText(a + b) == ConcatText(a + b') + last;
      assert ConcatText(b) == ConcatText(b') + last;
      assert ConcatText(a) + ConcatText(b') + last == ConcatText(a) + (ConcatText(b') + last);
    }
  }

  /** Plain concatenation of strings. */
  function ConcatStrings(ss: seq<string>): string
  {
    if |ss| == 0 then "" else ConcatStrings(ss[..|ss| - 1]) + ss[|ss| - 1]
  }
}
