/** The values that cross the boundary between the embedding functions and the
    collaborators they call but that are not part of this model: the
    output-document scope (`OutputDocumentFor`), the serializer
    (`standalone_docs_json`, `standalone_docs_json_and_render_items`), the
    resource bundler and the Jinja2 templates.  Each collaborator is an
    arbitrary total function, so every property proved holds for all of them. */
module Bridge {

  import opened Outcomes
  import opened Objects

  /** One root of a render item: the id of the DOM element to render into and
      the id of the model rendered there. */
  datatype RenderRoot = RenderRoot(elementId: Id, id: Id)

  /** What the serializer produces for one requested object. */
  datatype RenderItem = RenderItem(docId: Id, roots: seq<RenderRoot>)

  /** The reference to one root model inside a serialized document. */
  datatype RootJson = RootJson(id: Id, attributes: string)

  /** A serialized document. */
  datatype DocJson = DocJson(version: string, title: string, roots: seq<RootJson>)

  /** The serializer's output: the documents' JSON (the values of the
      `docs_json` dict, in order) and the render items. */
  datatype Serialized = Serialized(docs: seq<DocJson>, items: seq<RenderItem>)

  /** The `theme` argument: `None`, a `Theme`, or the `FromCurdoc` marker. */
  datatype ThemeArg = NoTheme | ThemeObject(name: string) | FromCurdoc

  /** A resource configuration; passed through to the bundler untouched. */
  datatype Resources = Resources(config: string)

  /** The arguments of one `OutputDocumentFor(objs, apply_theme, always_new)`. */
  datatype Scope = Scope(objs: seq<ModelLike>, theme: ThemeArg, alwaysNew: bool)

  /** The state of an output document that the serializer reads. */
  datatype DocState = DocState(title: string, roots: seq<Model>)

  /** One per-root result of `components`: a rendered `<div>` (`wrap_plot_info`
      true) or the `RenderRoot` itself. */
  datatype PlotInfo = Div(html: string) | Root(root: RenderRoot)

  datatype Collaborators = Collaborators(
    // `OutputDocumentFor(scope...)` entered, then `standalone_docs_json_and_render_items(requested)`
    renderItems: (Scope, seq<ModelLike>) -> Result<Serialized>,
    // `standalone_docs_json(models)` run while the scope's document is in the given state
    docsJson: (Scope, DocState, seq<Model>) -> Result<seq<DocJson>>,
    // the document a model's `document` attribute names while the scope is open
    scopeDocument: (Scope, Model) -> Option<DocRef>,
    // `script_for_render_items(docs_json, render_items)`
    itemsScript: (seq<DocJson>, seq<RenderItem>) -> string,
    // a bundle holding that script, then `bundle.scripts(tag=wrap_script)`
    componentsScript: (string, bool) -> string,
    // `ROOT_DIV.render(root=root, macros=MACROS)`
    rootDiv: RenderRoot -> string,
    // the resources' bundle plus the item script, through `AUTOLOAD_JS` and `wrap_in_onload`
    autoloadJs: (Resources, string, Id) -> string,
    // `AUTOLOAD_TAG.render(src_path, elementid)`
    autoloadTag: (string, Id) -> string,
    // the bundle for the document plus `html_page_for_render_items(..., title=title)`
    page: (Resources, seq<DocJson>, seq<RenderItem>, string) -> string,
    // `bokeh.__version__`
    version: string)

  /** The per-root results of `components`, one for each root of the render
      item. */
  function PlotInfos(roots: seq<RenderRoot>, wrapPlotInfo: bool, rootDiv: RenderRoot -> string): (infos: seq<PlotInfo>) {
    seq(|roots|, i requires 0 <= i < |roots| =>
      if wrapPlotInfo then Div(rootDiv(roots[i])) else Root(roots[i]))
  }

  /** The roots carried by `Root` results, in order. */
  function RootsOf(infos: seq<PlotInfo>): (roots: seq<RenderRoot>)
    requires forall i :: 0 <= i < |infos| ==> infos[i].Root?
  {
    seq(|infos|, i requires 0 <= i < |infos| && infos[i].Root? => infos[i].root)
  }

  /** The objects as code inside the scope sees them: the same models, each
      with the `document` the scope has given it. */
  function AsSeenInScope(objs: seq<ModelLike>, s: Scope, c: Collaborators): (r: seq<ModelLike>)
    ensures |r| == |objs|
  {
    seq(|objs|, i requires 0 <= i < |objs| =>
      match objs[i]
      case M(m) => M(m.(document := c.scopeDocument(s, m)))
      case D(d) => D(d))
  }

  /** One result per root, in root order: rendered divs when wrapping, and
      otherwise exactly the roots back again. */
  lemma PlotInfosPerRoot(roots: seq<RenderRoot>, wrapPlotInfo: bool, rootDiv: RenderRoot -> string)
    ensures |PlotInfos(roots, wrapPlotInfo, rootDiv)| == |roots|
    ensures wrapPlotInfo ==> forall i :: 0 <= i < |roots| ==>
      PlotInfos(roots, wrapPlotInfo, rootDiv)[i] == Div(rootDiv(roots[i]))
    ensures !wrapPlotInfo ==> RootsOf(PlotInfos(roots, wrapPlotInfo, rootDiv)) == roots
  {
  }
}
