/** The shape-preserving half of `components`: the caller's argument is
    classified as a single model, a sequence or a mapping and flattened to an
    ordered list; the per-root results are later packed back into the shape
    the caller used. */
module Shapes {

  import opened Outcomes
  import opened Objects

  const InvalidInputMessage: string :=
    "Input must be a Model, a Document, a Sequence of Models and Document, or a dictionary from string to Model and Document"

  /** How the caller's argument was shaped; a mapping remembers its class and
      its keys in order. */
  datatype Shape = SingleShape | SequenceShape | MappingShape(cls: DictClass, keys: seq<string>)

  /** The flattened request: the shape and the ordered objects to render. */
  datatype Request = Request(shape: Shape, items: seq<ModelLike>)

  predicate WellFormed(req: Request) {
    && (req.shape.SingleShape? ==> |req.items| == 1)
    && (req.shape.MappingShape? ==> |req.shape.keys| == |req.items|)
  }

  /** The result packed back into the caller's shape. */
  datatype Shaped<T> = One(value: T) | Tuple(values: seq<T>) | Mapping(cls: DictClass, entries: seq<(string, T)>)

  /** The argument forms the embedding functions accept; only a lone `Model`
      counts as single. */
  function Normalize(v: PyVal): (r: Result<Request>)
    ensures r.Ok? ==> WellFormed(r.value)
    ensures r.Ok? ==> (r.value.shape.SingleShape? <==> v.PModel?)
    ensures r.Ok? ==> (r.value.shape.MappingShape? <==> v.PDict?)
    ensures r.Err? ==> r.error == ValueError(InvalidInputMessage)
  {
    match v
    case PModel(m) => Ok(Request(SingleShape, [M(m)]))
    case PDoc(d) => Ok(Request(SequenceShape, [D(d)]))
    case PList(items) =>
      if AllModelLike(items) then Ok(Request(SequenceShape, ToModelLikes(items)))
      else Err(ValueError(InvalidInputMessage))
    case PStr(s) =>
      if s == "" then Ok(Request(SequenceShape, []))
      else Err(ValueError(InvalidInputMessage))
    case PDict(cls, entries) =>
      if AllStr(Keys(entries)) && AllModelLike(Values(entries))
      then Ok(Request(MappingShape(cls, Strings(Keys(entries))), ToModelLikes(Values(entries))))
      else Err(ValueError(InvalidInputMessage))
    case POther(_) => Err(ValueError(InvalidInputMessage))
  }

  function Min(a: nat, b: nat): (m: nat) {
    if a <= b then a else b
  }

  /** Python's `zip`: pairs up to the shorter of the two. */
  function Zip<A, B>(xs: seq<A>, ys: seq<B>): (r: seq<(A, B)>)
    ensures |r| == Min(|xs|, |ys|)
    ensures forall i :: 0 <= i < |r| ==> r[i] == (xs[i], ys[i])
  {
    if |xs| == 0 || |ys| == 0 then []
    else [(xs[0], ys[0])] + Zip(xs[1..], ys[1..])
  }

  function EntryKeys<T>(entries: seq<(string, T)>): (keys: seq<string>) {
    seq(|entries|, i requires 0 <= i < |entries| => entries[i].0)
  }

  /** Step 3 of `components`: `results[0]` for a single model,
      `dict_type(zip(keys, results))` for a mapping, `tuple(results)` otherwise. */
  function Reconstruct<T>(shape: Shape, results: seq<T>): (r: Result<Shaped<T>>)
    ensures shape.SingleShape? ==> (r.Ok? <==> |results| > 0)
    ensures !shape.SingleShape? ==> r.Ok?
    ensures r.Err? ==> r.error == IndexError
  {
    match shape
    case SingleShape => if |results| == 0 then Err(IndexError) else Ok(One(results[0]))
    case SequenceShape => Ok(Tuple(results))
    case MappingShape(cls, keys) => Ok(Mapping(cls, Zip(keys, results)))
  }

  /** The output has the form of the caller's input: a lone value for a
      `Model`, a tuple with one value per element for a sequence or a
      `Document`, a mapping of the same class with the same keys in the same
      order for a dict. */
  predicate SameShape<T>(v: PyVal, out: Shaped<T>) {
    match v
    case PModel(_) => out.One?
    case PDoc(_) => out.Tuple? && |out.values| == 1
    case PList(items) => out.Tuple? && |out.values| == |items|
    case PStr(s) => out.Tuple? && |out.values| == |s|
    case PDict(cls, entries) =>
      && AllStr(Keys(entries))
      && out.Mapping? && out.cls == cls
      && EntryKeys(out.entries) == Strings(Keys(entries))
    case POther(_) => false
  }

  /** Flatten, render one result per object, rebuild: the caller gets back
      the shape it passed in. */
  lemma ShapeRoundTrip<T>(v: PyVal, results: seq<T>)
    requires Normalize(v).Ok?
    requires |results| == |Normalize(v).value.items|
    ensures Reconstruct(Normalize(v).value.shape, results).Ok?
    ensures SameShape(v, Reconstruct(Normalize(v).value.shape, results).value)
  {
  }

  /** The rebuilt value holds the results in their order: the first for a
      single model, all of them for a sequence, and for a mapping the i-th key
      paired with the i-th result, as far as both lists reach. */
  lemma ReconstructKeepsOrder<T>(shape: Shape, results: seq<T>)
    requires Reconstruct(shape, results).Ok?
    ensures var out := Reconstruct(shape, results).value;
      match shape
      case SingleShape => out == One(results[0])
      case SequenceShape => out == Tuple(results)
      case MappingShape(cls, keys) =>
        && out.Mapping? && out.cls == cls
        && |out.entries| == Min(|keys|, |results|)
        && forall i :: 0 <= i < |out.entries| ==> out.entries[i] == (keys[i], results[i])
  {
  }

  /** When a mapping's values expand to more roots than it has keys, `zip`
      drops the results past the last key. */
  lemma MappingDropsExtraResults<T>(cls: DictClass, keys: seq<string>, results: seq<T>)
    requires |results| > |keys|
    ensures var out := Reconstruct(MappingShape(cls, keys), results).value;
      out.Mapping? && EntryKeys(out.entries) == keys && |out.entries| < |results|
  {
  }
}
