/** The objects the embedding functions are handed: Bokeh models and documents,
    and the Python values a caller may pass in their place. */
module Objects {

  import opened Outcomes

  type Id = string

  /** A reference to a document, as a model's `document` attribute holds it:
      the document's id and its current title. */
  datatype DocRef = DocRef(id: Id, title: string)

  /** A top-level model: its id and the document it belongs to, if any. */
  datatype Model = Model(id: Id, document: Option<DocRef>)

  /** A document: its id, its title and its ordered roots. */
  datatype Document = Document(id: Id, title: string, roots: seq<Model>)

  function RefTo(d: Document): (r: DocRef)
    ensures r.id == d.id && r.title == d.title
  {
    DocRef(d.id, d.title)
  }

  /** Every root of `d` refers back to `d`, as `Document.add_root` arranges. */
  predicate OwnsRoots(d: Document) {
    forall i :: 0 <= i < |d.roots| ==> d.roots[i].document == Some(RefTo(d))
  }

  /** Something `isinstance(x, (Model, Document))` accepts. */
  datatype ModelLike = M(model: Model) | D(doc: Document)

  /** The concrete class of a dict argument (`models.__class__`). */
  datatype DictClass = PlainDict | DictSubclass(name: string)

  /** A Python value as seen by the run-time type tests of the entry points.
      `PList` stands for every `Sequence` other than `str` (list, tuple, ...);
      `str` is kept apart because it is a `Sequence` of one-character strings.
      `PDict` keeps the dict's entries in insertion order. */
  datatype PyVal =
    | PModel(model: Model)
    | PDoc(doc: Document)
    | PStr(s: string)
    | PList(items: seq<PyVal>)
    | PDict(cls: DictClass, entries: seq<(PyVal, PyVal)>)
    | POther(tag: nat)

  predicate IsModelLike(v: PyVal) {
    v.PModel? || v.PDoc?
  }

  function AsModelLike(v: PyVal): (x: ModelLike)
    requires IsModelLike(v)
    ensures FromModelLike(x) == v
  {
    if v.PModel? then M(v.model) else D(v.doc)
  }

  function FromModelLike(x: ModelLike): PyVal {
    match x
    case M(m) => PModel(m)
    case D(d) => PDoc(d)
  }

  /** `isinstance(v, Sequence)` */
  predicate IsSequence(v: PyVal) {
    v.PList? || v.PStr?
  }

  /** What iterating over a sequence yields, in order. */
  function Elements(v: PyVal): (xs: seq<PyVal>)
    requires IsSequence(v)
    ensures v.PStr? ==> |xs| == |v.s|
  {
    if v.PList? then v.items
    else seq(|v.s|, i requires 0 <= i < |v.s| => PStr([v.s[i]]))
  }

  predicate AllModelLike(xs: seq<PyVal>) {
    forall i :: 0 <= i < |xs| ==> IsModelLike(xs[i])
  }

  predicate AllStr(xs: seq<PyVal>) {
    forall i :: 0 <= i < |xs| ==> xs[i].PStr?
  }

  function ToModelLikes(xs: seq<PyVal>): (r: seq<ModelLike>)
    requires AllModelLike(xs)
    ensures |r| == |xs|
    ensures forall i :: 0 <= i < |xs| ==> FromModelLike(r[i]) == xs[i]
  {
    seq(|xs|, i requires 0 <= i < |xs| => AsModelLike(xs[i]))
  }

  function Strings(xs: seq<PyVal>): (r: seq<string>)
    requires AllStr(xs)
    ensures |r| == |xs|
    ensures forall i :: 0 <= i < |xs| ==> PStr(r[i]) == xs[i]
  {
    seq(|xs|, i requires 0 <= i < |xs| => xs[i].s)
  }

  /** `d.keys()` and `d.values()`, in insertion order. */
  function Keys(entries: seq<(PyVal, PyVal)>): (r: seq<PyVal>)
    ensures |r| == |entries|
    ensures forall i :: 0 <= i < |entries| ==> r[i] == entries[i].0
  {
    seq(|entries|, i requires 0 <= i < |entries| => entries[i].0)
  }

  function Values(entries: seq<(PyVal, PyVal)>): (r: seq<PyVal>)
    ensures |r| == |entries|
    ensures forall i :: 0 <= i < |entries| ==> r[i] == entries[i].1
  {
    seq(|entries|, i requires 0 <= i < |entries| => entries[i].1)
  }

  /** The roots of a document, as the list of models a caller would have passed. */
  function RootsAsModelLikes(d: Document): (r: seq<ModelLike>)
    ensures |r| == |d.roots|
    ensures forall i :: 0 <= i < |r| ==> r[i] == M(d.roots[i])
  {
    seq(|d.roots|, i requires 0 <= i < |d.roots| => M(d.roots[i]))
  }
}
