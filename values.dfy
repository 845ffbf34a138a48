/** Plain values shared by the whole model: an Option type and the JSON-like
    objects that layer styles are made of. */
module Values {

  datatype Option<+T> = None | Some(value: T)

  /** A prefix one element longer is the prefix with that element appended. */
  lemma TakeSnoc<T>(s: seq<T>, i: nat)
    requires i < |s|
    ensures s[..i + 1] == s[..i] + [s[i]]
  {
  }

  /** A JavaScript value as it appears in a layer style object. Numbers are
      modelled as reals (no NaN, no infinities). */
  datatype Json =
    | JNull
    | JBool(b: bool)
    | JNum(n: real)
    | JStr(str: string)
    | JArr(items: seq<Json>)
    | JObj(fields: map<string, Json>)

  /** A layer style: the top-level keys of the object handed to the backend. */
  type Style = map<string, Json>

  /** The shallow merge `Object.assign({}, base, over)`: every key of `over`
      wins, every other key keeps its value from `base`. */
  function Assign(base: Style, over: Style): (r: Style)
    ensures r.Keys == base.Keys + over.Keys
    ensures forall k :: k in over ==> r[k] == over[k]
    ensures forall k :: k in base && k !in over ==> r[k] == base[k]
  {
    base + over
  }

  /** The `paint` object of a style, or an empty one when it has none. */
  function PaintOf(style: Style): map<string, Json>
  {
    if "paint" in style && style["paint"].JObj? then style["paint"].fields else map[]
  }

  /** The style after the backend's `setPaintProperty(id, name, value)`. */
  function WithPaint(style: Style, name: string, value: Json): Style
  {
    style["paint" := JObj(PaintOf(style)[name := value])]
  }

  /** `setPaintProperty` adds a `paint` object if there is none, sets one
      property in it, keeps its other properties and every other key. */
  lemma WithPaintShape(style: Style, name: string, value: Json)
    ensures WithPaint(style, name, value).Keys == style.Keys + {"paint"}
    ensures forall k :: k in style && k != "paint" ==> WithPaint(style, name, value)[k] == style[k]
    ensures PaintOf(WithPaint(style, name, value)) == PaintOf(style)[name := value]
  {
  }

  /** Setting a paint property to the value it already has changes nothing. */
  lemma WithPaintUnchanged(style: Style, name: string, value: Json)
    requires "paint" in style && style["paint"].JObj?
    requires name in style["paint"].fields && style["paint"].fields[name] == value
    ensures WithPaint(style, name, value) == style
  {
    var paint := style["paint"].fields;
    assert paint[name := value] == paint;
  }
}
