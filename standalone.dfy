/** The entry points of bokeh/embed/standalone.py: `autoload_static`,
    `components`, `file_html` and `json_item`, with their private helpers
    `_check_models_or_docs` and `_title_from_models`.  What happens inside the
    output-document scope, the serializer and the templates is delegated to the
    `Collaborators` functions. */
module Standalone {

  import opened Outcomes
  import opened Objects
  import opened Bridge
  import opened Shapes
  import opened Titles

  const AutoloadMessage: string := "autoload_static expects a single Model or Document"

  //--------------------------------------------------------------------------
  // _check_models_or_docs
  //--------------------------------------------------------------------------

  /** The collections `_check_models_or_docs` lets through: a sequence all of
      whose elements are models or documents (an empty one included, and so
      the empty string), or a dict from strings to models or documents. */
  predicate IsCollection(v: PyVal) {
    match v
    case PList(items) => forall i :: 0 <= i < |items| ==> items[i].PModel? || items[i].PDoc?
    case PStr(s) => s == ""
    case PDict(_, entries) =>
      forall i :: 0 <= i < |entries| ==> entries[i].0.PStr? && (entries[i].1.PModel? || entries[i].1.PDoc?)
    case _ => false
  }

  /** A lone model or document is wrapped in a one-element list; a valid
      collection comes back unchanged; anything else raises `ValueError`. */
  function CheckModelsOrDocs(models: PyVal): (r: Result<PyVal>)
    ensures IsModelLike(models) ==> r == Ok(PList([models]))
    ensures !IsModelLike(models) ==> (r.Ok? <==> IsCollection(models))
    ensures r.Ok? ==> IsCollection(r.value)
    ensures r.Ok? && !IsModelLike(models) ==> r.value == models
    ensures r.Err? ==> r.error == ValueError(InvalidInputMessage)
  {
    var m := if IsModelLike(models) then PList([models]) else models;
    StrElements(m);
    var validSequence := IsSequence(m) && AllModelLike(Elements(m));
    var validDict := m.PDict? && AllStr(Keys(m.entries)) && AllModelLike(Values(m.entries));
    if validSequence || validDict then Ok(m) else Err(ValueError(InvalidInputMessage))
  }

  /** Iterating a string yields strings, so only the empty string passes the
      sequence test. */
  lemma StrElements(v: PyVal)
    ensures v.PStr? ==> (AllModelLike(Elements(v)) <==> v.s == "")
  {
    if v.PStr? && v.s != "" {
      assert Elements(v)[0].PStr?;
    }
  }

  //--------------------------------------------------------------------------
  // _title_from_models
  //--------------------------------------------------------------------------

  /** The two early-return searches of `_title_from_models`. */
  method TitleFromModels(models: seq<ModelLike>, title: Option<string>) returns (r: string)
    ensures r == Title(models, title)
  {
    if title.Some? {
      return title.value;
    }
    var i := 0;
    while i < |models|
      invariant 0 <= i <= |models|
      invariant FirstDocumentTitle(models[i..]) == FirstDocumentTitle(models)
    {
      if models[i].D? {
        return models[i].doc.title;
      }
      assert models[i..][1..] == models[i + 1..];
      i := i + 1;
    }
    i := 0;
    while i < |models|
      invariant 0 <= i <= |models|
      invariant FirstOwnerTitle(models[i..]) == FirstOwnerTitle(models)
    {
      if IsOwned(models[i]) {
        return models[i].model.document.value.title;
      }
      assert models[i..][1..] == models[i + 1..];
      i := i + 1;
    }
    return DefaultTitle;
  }

  //--------------------------------------------------------------------------
  // components
  //--------------------------------------------------------------------------

  /** The pipeline of `components` stated through the normalizer and the
      reconstructor: flatten, render the objects into one render item, build
      one result per root, pack them into the caller's shape. */
  function ComponentsSpec(models: PyVal, wrapScript: bool, wrapPlotInfo: bool, theme: ThemeArg, c: Collaborators)
    : (r: Result<(string, Shaped<PlotInfo>)>)
  {
    match Normalize(models)
    case Err(e) => Err(e)
    case Ok(req) =>
      match c.renderItems(Scope(req.items, theme, false), req.items)
      case Err(e) => Err(e)
      case Ok(ser) =>
        if |ser.items| != 1 then Err(UnpackMismatch(|ser.items|))
        else
          var item := ser.items[0];
          match Reconstruct(req.shape, PlotInfos(item.roots, wrapPlotInfo, c.rootDiv))
          case Err(e) => Err(e)
          case Ok(shaped) => Ok((c.componentsScript(c.itemsScript(ser.docs, [item]), wrapScript), shaped))
  }

  /** What `_check_models_or_docs` returns determines the same flat list and
      shape as the normalizer. */
  lemma CheckedAgreesWithNormalize(models: PyVal, checked: PyVal)
    requires CheckModelsOrDocs(if models.PModel? then PList([models]) else models) == Ok(checked)
    ensures Normalize(models).Ok?
    ensures checked.PDict? ==> (Normalize(models).value ==
      Request(MappingShape(checked.cls, Strings(Keys(checked.entries))), ToModelLikes(Values(checked.entries))))
    ensures !checked.PDict? ==> (IsSequence(checked) && AllModelLike(Elements(checked)) &&
      Normalize(models).value.items == ToModelLikes(Elements(checked)) &&
      Normalize(models).value.shape == (if models.PModel? then SingleShape else SequenceShape))
  {
  }

  /** `components`: the argument is rebound step by step (wrapped, checked,
      split into keys and values), rendered, and rebuilt in its own shape. */
  method Components(models: PyVal, wrapScript: bool, wrapPlotInfo: bool, theme: ThemeArg, c: Collaborators)
    returns (r: Result<(string, Shaped<PlotInfo>)>)
    ensures r == ComponentsSpec(models, wrapScript, wrapPlotInfo, theme, c)
  {
    // 1) convert single items and dicts into a list
    var wasSingleObject := false;
    var input := models;
    if input.PModel? {
      wasSingleObject := true;
      input := PList([input]);
    }
    var checked :- CheckModelsOrDocs(input);
    CheckedAgreesWithNormalize(models, checked);

    var modelKeys: Option<seq<string>> := None;
    var dictType := PlainDict;
    var items: seq<ModelLike>;
    if checked.PDict? {
      dictType := checked.cls;
      modelKeys := Some(Strings(Keys(checked.entries)));
      items := ToModelLikes(Values(checked.entries));
    } else {
      items := ToModelLikes(Elements(checked));
    }

    // 2) render inside the output-document scope
    var serialized :- c.renderItems(Scope(items, theme, false), items);
    if |serialized.items| != 1 {
      return Err(UnpackMismatch(|serialized.items|));
    }
    var renderItem := serialized.items[0];
    var script := c.componentsScript(c.itemsScript(serialized.docs, [renderItem]), wrapScript);
    var results := PlotInfos(renderItem.roots, wrapPlotInfo, c.rootDiv);

    // 3) convert back to the input shape
    var result: Shaped<PlotInfo>;
    if wasSingleObject {
      if |results| == 0 {
        return Err(IndexError);
      }
      result := One(results[0]);
    } else if modelKeys.Some? {
      result := Mapping(dictType, Zip(modelKeys.value, results));
    } else {
      result := Tuple(results);
    }
    return Ok((script, result));
  }

  /** Anything that is not a model, a document or a valid collection is
      refused with `ValueError` before any collaborator is consulted. */
  lemma ComponentsRejectsInvalidInput(models: PyVal, wrapScript: bool, wrapPlotInfo: bool, theme: ThemeArg, c: Collaborators)
    requires !IsModelLike(models) && !IsCollection(models)
    ensures ComponentsSpec(models, wrapScript, wrapPlotInfo, theme, c) == Err(ValueError(InvalidInputMessage))
  {
  }

  /** A lone model yields its first per-root result itself, not wrapped in a
      tuple. */
  lemma ComponentsSingleModel(m: Model, wrapScript: bool, wrapPlotInfo: bool, theme: ThemeArg, c: Collaborators,
                              ser: Serialized)
    requires c.renderItems(Scope([M(m)], theme, false), [M(m)]) == Ok(ser)
    requires |ser.items| == 1 && |ser.items[0].roots| > 0
    ensures ComponentsSpec(PModel(m), wrapScript, wrapPlotInfo, theme, c).Ok?
    ensures ComponentsSpec(PModel(m), wrapScript, wrapPlotInfo, theme, c).value.1 ==
      One(if wrapPlotInfo then Div(c.rootDiv(ser.items[0].roots[0])) else Root(ser.items[0].roots[0]))
  {
  }

  /** A lone document is not treated as single: its results come back as a
      tuple, one entry per root of the render item. */
  lemma ComponentsLoneDocument(d: Document, wrapScript: bool, wrapPlotInfo: bool, theme: ThemeArg, c: Collaborators,
                               ser: Serialized)
    requires c.renderItems(Scope([D(d)], theme, false), [D(d)]) == Ok(ser)
    requires |ser.items| == 1
    ensures ComponentsSpec(PDoc(d), wrapScript, wrapPlotInfo, theme, c).Ok?
    ensures ComponentsSpec(PDoc(d), wrapScript, wrapPlotInfo, theme, c).value.1 ==
      Tuple(PlotInfos(ser.items[0].roots, wrapPlotInfo, c.rootDiv))
  {
  }

  /** A dict yields a mapping of the caller's dict class whose i-th entry pairs
      the i-th key with the i-th root's result; with one root per value the
      keys are exactly the caller's, in the caller's order. */
  lemma ComponentsMapping(cls: DictClass, entries: seq<(PyVal, PyVal)>, wrapScript: bool, wrapPlotInfo: bool,
                          theme: ThemeArg, c: Collaborators, ser: Serialized)
    requires IsCollection(PDict(cls, entries))
    requires var items := ToModelLikes(Values(entries));
      c.renderItems(Scope(items, theme, false), items) == Ok(ser)
    requires |ser.items| == 1
    ensures var out := ComponentsSpec(PDict(cls, entries), wrapScript, wrapPlotInfo, theme, c);
      var infos := PlotInfos(ser.items[0].roots, wrapPlotInfo, c.rootDiv);
      && out.Ok? && out.value.1.Mapping? && out.value.1.cls == cls
      && |out.value.1.entries| == Min(|entries|, |infos|)
      && (forall i :: 0 <= i < |out.value.1.entries| ==>
            PStr(out.value.1.entries[i].0) == entries[i].0 && out.value.1.entries[i].1 == infos[i])
      && (|infos| == |entries| ==> SameShape(PDict(cls, entries), out.value.1))
  {
  }

  /** A sequence yields a tuple of the per-root results in the render item's
      root order. */
  lemma ComponentsSequence(items: seq<PyVal>, wrapScript: bool, wrapPlotInfo: bool, theme: ThemeArg,
                           c: Collaborators, ser: Serialized)
    requires AllModelLike(items)
    requires var xs := ToModelLikes(items);
      c.renderItems(Scope(xs, theme, false), xs) == Ok(ser)
    requires |ser.items| == 1
    ensures var out := ComponentsSpec(PList(items), wrapScript, wrapPlotInfo, theme, c);
      && out.Ok?
      && out.value.1 == Tuple(PlotInfos(ser.items[0].roots, wrapPlotInfo, c.rootDiv))
      && |out.value.1.values| == |ser.items[0].roots|
      && (!wrapPlotInfo ==> RootsOf(out.value.1.values) == ser.items[0].roots)
  {
  }

  //--------------------------------------------------------------------------
  // autoload_static
  //--------------------------------------------------------------------------

  /** The objects `autoload_static` hands to the output-document scope: the
      model itself, or the document's roots. */
  function AutoloadScopeObjects(model: PyVal): (r: seq<ModelLike>)
    requires IsModelLike(model)
  {
    if model.PModel? then [M(model.model)] else RootsAsModelLikes(model.doc)
  }

  /** `autoload_static`: exactly one render item is expected, and the element
      id of that item's first root is the one element id used by both the
      JavaScript and the `<script>` tag. */
  function AutoloadStatic(model: PyVal, resources: Resources, scriptPath: string, c: Collaborators)
    : (r: Result<(string, string)>)
    ensures !IsModelLike(model) ==> r == Err(ValueError(AutoloadMessage))
    ensures IsModelLike(model) ==>
      var rendered := c.renderItems(Scope(AutoloadScopeObjects(model), NoTheme, false), [AsModelLike(model)]);
      && (r.Ok? <==> rendered.Ok? && |rendered.value.items| == 1 && |rendered.value.items[0].roots| > 0)
      && (r.Ok? ==>
            var item := rendered.value.items[0];
            var elementId := item.roots[0].elementId;
            r.value == (c.autoloadJs(resources, c.itemsScript(rendered.value.docs, [item]), elementId),
                        c.autoloadTag(scriptPath, elementId)))
  {
    if !IsModelLike(model) then Err(ValueError(AutoloadMessage))
    else
      var models := AutoloadScopeObjects(model);
      match c.renderItems(Scope(models, NoTheme, false), [AsModelLike(model)])
      case Err(e) => Err(e)
      case Ok(ser) =>
        if |ser.items| != 1 then Err(UnpackMismatch(|ser.items|))
        else
          var renderItem := ser.items[0];
          var script := c.itemsScript(ser.docs, [renderItem]);
          if |renderItem.roots| == 0 then Err(IndexError)
          else
            var elementId := renderItem.roots[0].elementId;
            Ok((c.autoloadJs(resources, script, elementId), c.autoloadTag(scriptPath, elementId)))
  }

  /** A document with several roots is not refused: the tag points at the
      element of its first root only. */
  lemma AutoloadMultiRootDocument(d: Document, resources: Resources, scriptPath: string, c: Collaborators,
                                  ser: Serialized)
    requires |d.roots| >= 2
    requires c.renderItems(Scope(RootsAsModelLikes(d), NoTheme, false), [D(d)]) == Ok(ser)
    requires |ser.items| == 1 && |ser.items[0].roots| >= 2
    ensures AutoloadStatic(PDoc(d), resources, scriptPath, c).Ok?
    ensures AutoloadStatic(PDoc(d), resources, scriptPath, c).value.1 ==
      c.autoloadTag(scriptPath, ser.items[0].roots[0].elementId)
  {
  }

  //--------------------------------------------------------------------------
  // file_html
  //--------------------------------------------------------------------------

  /** `models_seq` of `file_html`.  A sequence is used as given; an input that
      is not a sequence of models and documents would make the
      output-document scope raise, which the model reports as `ScopeRejected`. */
  function FileHtmlObjects(models: PyVal): (r: Result<seq<ModelLike>>)
    ensures models.PModel? ==> r == Ok([M(models.model)])
    ensures models.PDoc? ==> r == Ok(RootsAsModelLikes(models.doc))
    ensures models.PList? ==> (r.Ok? <==> AllModelLike(models.items))
    ensures models.PList? && r.Ok? ==> (|r.value| == |models.items| &&
      forall i :: 0 <= i < |models.items| ==> FromModelLike(r.value[i]) == models.items[i])
    ensures !IsModelLike(models) && !models.PList? ==> r == Err(ScopeRejected)
  {
    match models
    case PModel(m) => Ok([M(m)])
    case PDoc(d) => Ok(RootsAsModelLikes(d))
    case PList(items) => if AllModelLike(items) then Ok(ToModelLikes(items)) else Err(ScopeRejected)
    case _ => Err(ScopeRejected)
  }

  /** A lone model or document reaches the output-document scope the same way
      from `autoload_static` and from `file_html`. */
  lemma AutoloadAndFileHtmlClassifyAlike(v: PyVal)
    requires IsModelLike(v)
    ensures FileHtmlObjects(v) == Ok(AutoloadScopeObjects(v))
  {
  }

  /** `file_html`: render every object inside one scope and lay out one page
      whose title follows the title precedence, applied to the objects as the
      scope presents them. */
  method FileHtml(models: PyVal, resources: Resources, title: Option<string>, theme: ThemeArg, alwaysNew: bool,
                  c: Collaborators) returns (r: Result<string>)
    ensures FileHtmlObjects(models).Err? ==> r == Err(FileHtmlObjects(models).error)
    ensures FileHtmlObjects(models).Ok? ==>
      var objs := FileHtmlObjects(models).value;
      var scope := Scope(objs, theme, alwaysNew);
      var rendered := c.renderItems(scope, objs);
      && (rendered.Err? ==> r == Err(rendered.error))
      && (rendered.Ok? ==> r == Ok(c.page(resources, rendered.value.docs, rendered.value.items,
                                         Title(AsSeenInScope(objs, scope, c), title))))
  {
    var modelsSeq :- FileHtmlObjects(models);
    var scope := Scope(modelsSeq, theme, alwaysNew);
    var serialized :- c.renderItems(scope, modelsSeq);
    var pageTitle := TitleFromModels(AsSeenInScope(modelsSeq, scope, c), title);
    return Ok(c.page(resources, serialized.docs, serialized.items, pageTitle));
  }

  /** An explicit title is always the page title.  Without one, a page whose
      models have no document inside the scope carries the default title. */
  lemma FileHtmlTitle(ms: seq<Model>, title: Option<string>, theme: ThemeArg, alwaysNew: bool, c: Collaborators)
    ensures var objs := FileHtmlObjects(PList(seq(|ms|, i requires 0 <= i < |ms| => PModel(ms[i])))).value;
      var seen := AsSeenInScope(objs, Scope(objs, theme, alwaysNew), c);
      && (title.Some? ==> Title(seen, title) == title.value)
      && ((forall i :: 0 <= i < |ms| ==> c.scopeDocument(Scope(objs, theme, alwaysNew), ms[i]).None?) ==>
            Title(seen, title) == if title.Some? then title.value else DefaultTitle)
  {
    var objs := FileHtmlObjects(PList(seq(|ms|, i requires 0 <= i < |ms| => PModel(ms[i])))).value;
    var scope := Scope(objs, theme, alwaysNew);
    var seen := AsSeenInScope(objs, scope, c);
    assert forall i :: 0 <= i < |ms| ==> objs[i] == M(ms[i]);
    if forall i :: 0 <= i < |ms| ==> c.scopeDocument(scope, ms[i]).None? {
      var unowned := seq(|ms|, i requires 0 <= i < |ms| => ms[i].(document := c.scopeDocument(scope, ms[i])));
      assert seen == seq(|unowned|, i requires 0 <= i < |unowned| => M(unowned[i]));
      UnownedModelsGetDefaultTitle(unowned);
    }
  }

  /** `file_html(doc)` without a title: when the scope leaves the roots in the
      document that owns them, the page carries that document's title. */
  lemma FileHtmlDocumentTitle(d: Document, theme: ThemeArg, alwaysNew: bool, c: Collaborators)
    requires OwnsRoots(d) && |d.roots| > 0
    requires var scope := Scope(RootsAsModelLikes(d), theme, alwaysNew);
      forall i :: 0 <= i < |d.roots| ==> c.scopeDocument(scope, d.roots[i]) == d.roots[i].document
    ensures var objs := FileHtmlObjects(PDoc(d)).value;
      Title(AsSeenInScope(objs, Scope(objs, theme, alwaysNew), c), None) == d.title
  {
    var objs := RootsAsModelLikes(d);
    var seen := AsSeenInScope(objs, Scope(objs, theme, alwaysNew), c);
    assert forall j :: 0 <= j < |seen| ==> seen[j] == M(d.roots[j]);
    FirstDocumentTitleNone(seen);
    FirstOwnerTitleAt(seen, 0);
  }

  //--------------------------------------------------------------------------
  // json_item
  //--------------------------------------------------------------------------

  /** The record `json_item` returns (`StandaloneEmbedJson`). */
  datatype StandaloneEmbedJson = StandaloneEmbedJson(targetId: Option<Id>, rootId: Id, doc: DocJson, version: string)

  /** `[doc_json] = ...values()`, `doc_json["roots"][0]["id"]` and the record. */
  function EmbedRecord(target: Option<Id>, docs: seq<DocJson>, version: string): (r: Result<StandaloneEmbedJson>)
    ensures |docs| != 1 ==> r == Err(UnpackMismatch(|docs|))
    ensures |docs| == 1 && |docs[0].roots| == 0 ==> r == Err(IndexError)
    ensures r.Ok? <==> |docs| == 1 && |docs[0].roots| > 0
    ensures r.Ok? ==>
      && r.value.targetId == target
      && r.value.rootId == docs[0].roots[0].id
      && r.value.doc == docs[0]
      && r.value.version == version
  {
    if |docs| != 1 then Err(UnpackMismatch(|docs|))
    else if |docs[0].roots| == 0 then Err(IndexError)
    else Ok(StandaloneEmbedJson(target, docs[0].roots[0].id, docs[0], version))
  }

  /** The document the output-document scope yields (`as doc`).  `json_item`
      is the one entry point that writes to it. */
  class OutputDocument {
    var title: string
    var roots: seq<Model>

    constructor (title: string, roots: seq<Model>)
      ensures this.title == title && this.roots == roots
    {
      this.title := title;
      this.roots := roots;
    }

    function State(): DocState
      reads this
    {
      DocState(title, roots)
    }
  }

  /** `json_item`: inside the scope the document's title is cleared before it
      is serialized; the record carries the given target, the first root's id,
      the document JSON and the library version. */
  method JsonItem(model: Model, target: Option<Id>, theme: ThemeArg, doc: OutputDocument, c: Collaborators)
    returns (r: Result<StandaloneEmbedJson>)
    modifies doc
    ensures doc.title == "" && doc.roots == old(doc.roots)
    ensures var serialized := c.docsJson(Scope([M(model)], theme, false), DocState("", old(doc.roots)), [model]);
      r == if serialized.Err? then Err(serialized.error) else EmbedRecord(target, serialized.value, c.version)
  {
    doc.title := "";
    var docs :- c.docsJson(Scope([M(model)], theme, false), doc.State(), [model]);
    r := EmbedRecord(target, docs, c.version);
  }
}
