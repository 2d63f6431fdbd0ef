/** HyperSpy signals as the backend sees them: an optional title from
    `metadata.General.title`, the class name, and an optional numpy array
    (absent when the signal has no `data` attribute or the data has no
    `shape`), and its `original_metadata`. */
module Signals {
  import opened Wrappers
  import opened Metadata
  import opened PyText

  /** The elements of an array of rank 1, 2 or 3; arrays of any other rank
      are only ever inspected through their shape. */
  datatype Values =
    | Line(v: seq<real>)
    | Grid(m: seq<seq<real>>)
    | Cube(c: seq<seq<seq<real>>>)
    | Unviewed

  datatype NdArray = NdArray(shape: seq<nat>, values: Values)

  /** numpy arrays are rectangular: the nested sequences agree with the shape. */
  ghost predicate WellFormed(a: NdArray) {
    match a.values
    case Line(v) => |a.shape| == 1 && |v| == a.shape[0]
    case Grid(m) =>
      && |a.shape| == 2 && |m| == a.shape[0]
      && forall i :: 0 <= i < |m| ==> |m[i]| == a.shape[1]
    case Cube(c) =>
      && |a.shape| == 3 && |c| == a.shape[0]
      && (forall i :: 0 <= i < |c| ==> |c[i]| == a.shape[1])
      && forall i, j :: 0 <= i < |c| && 0 <= j < |c[i]| ==> |c[i][j]| == a.shape[2]
    case Unviewed => |a.shape| !in {1, 2, 3}
  }

  type Array = a: NdArray | WellFormed(a) witness NdArray([0], Line([]))

  function Rank(a: Array): nat {
    |a.shape|
  }

  /** The number of elements, `a.size`. */
  function Size(shape: seq<nat>): nat {
    if shape == [] then 1 else shape[0] * Size(shape[1..])
  }

  /** `typeName` is `type(sig).__name__` and `typeModule` the module that
      defines that class; `originalMetadata` is None when the signal has no
      such attribute. */
  datatype Signal = Signal(
    title: Option<string>,
    typeName: string,
    typeModule: string,
    data: Option<Array>,
    originalMetadata: Option<Value>)

  /** `str(type(sig))`: the class written as `<class 'module.Name'>`. */
  function ClassRepr(sig: Signal): (r: string)
    ensures |r| == |sig.typeModule| + |sig.typeName| + 11
    ensures StartsWith(r, "<class '") && EndsWith(r, "'>")
    ensures r[8..|r| - 2] == sig.typeModule + "." + sig.typeName
  {
    "<class '" + sig.typeModule + "." + sig.typeName + "'>"
  }

  datatype Capabilities = Capabilities(hasSpectrum: bool, hasImage: bool)

  /** `get_signal_capabilities`: what a signal can be shown as, from its rank
      alone. The same table is written out in two source files. */
  function GetSignalCapabilities(sig: Signal): (c: Capabilities)
    ensures sig.data.None? ==> c == Capabilities(false, false)
    ensures c.hasSpectrum <==> sig.data.Some? && Rank(sig.data.value) in {1, 3}
    ensures c.hasImage <==> sig.data.Some? && Rank(sig.data.value) in {2, 3}
  {
    match sig.data
    case None => Capabilities(false, false)
    case Some(a) =>
      var dims := Rank(a);
      Capabilities(dims == 1 || dims == 3, dims == 2 || dims == 3)
  }

  /** A signal that can be shown both ways is exactly a 3D data cube. */
  lemma BothCapabilitiesMeanCube(sig: Signal)
    ensures GetSignalCapabilities(sig).hasSpectrum && GetSignalCapabilities(sig).hasImage
        <==> sig.data.Some? && sig.data.value.values.Cube?
  {
  }

  /** One entry of the signal list the frontend receives. */
  datatype SignalInfo = SignalInfo(
    index: nat,
    title: string,
    typeName: string,
    shape: Option<seq<nat>>,
    capabilities: Capabilities)

  function Sum(s: seq<real>): real {
    if s == [] then 0.0 else s[0] + Sum(s[1..])
  }

  /** `np.sum(cube, axis=2)`: each pixel's spectrum collapsed to its total. */
  function SumLastAxis(c: seq<seq<seq<real>>>): (img: seq<seq<real>>)
    ensures |img| == |c|
    ensures forall i :: 0 <= i < |c| ==> |img[i]| == |c[i]|
    ensures forall i, j :: 0 <= i < |c| && 0 <= j < |c[i]| ==> img[i][j] == Sum(c[i][j])
  {
    seq(|c|, i requires 0 <= i < |c| => seq(|c[i]|, j requires 0 <= j < |c[i]| => Sum(c[i][j])))
  }
}
