# Standalone embedding of Bokeh models, in Dafny

This project models the shape and metadata logic of Bokeh's standalone
embedding module, `bokeh/embed/standalone.py`. The module has four entry points:

- `autoload_static` returns JavaScript plus a `<script>` tag;
- `components` returns a script plus one `<div>` or `RenderRoot` per root;
- `file_html` returns a whole HTML page;
- `json_item` returns a JSON record.

Each entry point takes a model, a document, a sequence of them or a dict of
them. The model covers how that argument is checked and classified, how
`components` flattens it and rebuilds its results in the caller's shape, how
`file_html` picks a page title, how `autoload_static` picks its one element
id, and how `json_item` builds its record.

Modules:

- `Outcomes` (outcomes.dfy): `Option`, `Result`, and the exceptions the code
  can raise. These are an explicit `ValueError`, the `ValueError` of `[x] = xs`
  unpacking, the `IndexError` of `[0]` on an empty list, and failures inside
  the output-document scope or the serializer.
- `Objects` (objects.dfy): `Model` (an id and an optional reference to its
  document), `Document` (an id, a title and ordered roots), and `PyVal`, the Python value seen by
  the `isinstance` tests. A `str` is kept apart from other sequences because
  Python treats it as a sequence of one-character strings. A dict keeps its
  concrete class and its insertion order.
- `Bridge` (bridge.dfy): render items, document JSON, the per-root results,
  and `Collaborators`. That is a record of arbitrary total functions standing
  for the output-document scope, the serializer, the bundler, the templates and
  `__version__`. One of them says which document each model belongs to while
  the scope is open. Every property holds for every choice of those functions.
- `Shapes` (shapes.dfy): the classifier `Normalize` (single / sequence /
  mapping, with the dict class and key order), Python's `zip`, and the
  reconstruction step of `components`, with the shape round trip.
- `Titles` (titles.dfy): the title precedence as a function and lemmas.
- `Standalone` (standalone.dfy): the entry points themselves.
  `_check_models_or_docs` and `autoload_static` are functions.
  `_title_from_models` is a method with the source's two early-return loops.
  `components` is a method that rebinds its argument step by step and is proved
  equal to the normalize / render / reconstruct pipeline. `file_html` is a
  method. `json_item` is a method that clears the title of the scope's
  `OutputDocument` object before serializing.

Behaviour of the code a reader may not expect:

- `autoload_static` does not reject a document with several roots. It uses the
  element id of the first root of the single render item
  (`AutoloadMultiRootDocument`).
- `components` rebuilds a dict with `zip`, which stops at the shorter list. If
  the values expand to more roots than there are keys, the extra results are
  dropped (`MappingDropsExtraResults`). Nothing checks that the lengths are
  equal.
- `components` passes a lone document to the serializer as it is, inside a
  one-element list. It is not expanded to its roots first, and it is not
  treated as single: the result is a tuple.
- The `ValueError` of `_check_models_or_docs` has one fixed message. It does
  not name the offending element.

## Model

| member | source | states |
|---|---|---|
| Standalone.CheckModelsOrDocs | src/bokeh/embed/standalone.py:449-473 | A lone Model or Document becomes a one-element list. An all-Model/Document sequence (the empty one and `""` included) or a str-keyed dict of Models/Documents is returned unchanged. Everything else is `ValueError` with the fixed message. Acceptance holds exactly for those forms (both directions). |
| Standalone.TitleFromModels | src/bokeh/embed/standalone.py:475-491 | The two linear searches with early return compute exactly the title precedence `Title`. |
| Titles.TitlePrecedence | src/bokeh/embed/standalone.py:475-491 | An explicit title wins, even `""`. Otherwise the title of the first Document in the list. Otherwise, when there is no Document, the title of the first model that has a document. Otherwise `DEFAULT_TITLE`. |
| Titles.FirstDocumentTitleAt | src/bokeh/embed/standalone.py:481-483 | When position i holds the first Document, the search returns that document's title. |
| Titles.FirstDocumentTitleNone | src/bokeh/embed/standalone.py:481-483 | The document search finds nothing exactly when no element is a Document. |
| Titles.FirstOwnerTitleAt | src/bokeh/embed/standalone.py:486-488 | When position i holds the first model with a document, the search returns that document's title. |
| Titles.FirstOwnerTitleNone | src/bokeh/embed/standalone.py:486-488 | The owner search finds nothing exactly when no model has a document. |
| Titles.UnownedModelsGetDefaultTitle | src/bokeh/embed/standalone.py:486-491 | Models that belong to no document get `DEFAULT_TITLE` when no title is given. |
| Shapes.Normalize | src/bokeh/embed/standalone.py:250-266 | Classifies the argument of `components`. The shape is single exactly for a lone Model, and the flat list then has one element. The shape is a mapping exactly for a dict. A mapping's key list is as long as its object list. Every refusal is the `ValueError` of the check. |
| Shapes.Zip | src/bokeh/embed/standalone.py:291 | `zip` has the length of the shorter list, and its i-th pair is the i-th elements of both. |
| Shapes.Reconstruct | src/bokeh/embed/standalone.py:286-293 | Rebuilding fails only for a single model with no results (`IndexError` on `results[0]`). A sequence or a mapping always rebuilds. |
| Shapes.ShapeRoundTrip | src/bokeh/embed/standalone.py:250-293 | With one result per flattened object, the rebuilt value has the caller's shape. A Model gives a lone value. A sequence gives a tuple of the same length. For a Document the hypothesis means one result in all; a Document rendered with all its roots is covered by `Standalone.ComponentsLoneDocument`. A dict gives a mapping of the same class with the same keys in the same order. |
| Shapes.ReconstructKeepsOrder | src/bokeh/embed/standalone.py:287-293 | The rebuilt value keeps the results in order. A single model gets the first result, a sequence gets all of them, and a mapping pairs the i-th key with the i-th result as far as both lists reach. |
| Shapes.MappingDropsExtraResults | src/bokeh/embed/standalone.py:290-291 | With more results than keys, the mapping holds exactly the caller's keys and fewer entries than results. |
| Bridge.PlotInfosPerRoot | src/bokeh/embed/standalone.py:280-284 | There is one result per root, in root order. With `wrap_plot_info` each result is that root's rendered div. Without it, the results are exactly the roots. |
| Standalone.CheckedAgreesWithNormalize | src/bokeh/embed/standalone.py:252-266 | The list, keys and shape that `components` derives from the checked value equal those of `Normalize`. |
| Standalone.Components | src/bokeh/embed/standalone.py:250-295 | The step-by-step method equals the pipeline "normalize, render into exactly one render item, one result per root, rebuild in the input shape". This includes every error path: a refused argument, a collaborator failure, an unpacking mismatch, and an empty result for a single model. |
| Standalone.ComponentsRejectsInvalidInput | src/bokeh/embed/standalone.py:258 | An argument that is not a Model, a Document or a valid collection gives `ValueError`, whatever the collaborators do. |
| Standalone.ComponentsSingleModel | src/bokeh/embed/standalone.py:252-289 | A lone Model yields its first per-root result, not wrapped in a tuple. |
| Standalone.ComponentsLoneDocument | src/bokeh/embed/standalone.py:252-293 | A lone Document yields a tuple of per-root results, never a lone value. |
| Standalone.ComponentsMapping | src/bokeh/embed/standalone.py:262-291 | A dict yields a mapping of the caller's dict class. Its i-th entry pairs the caller's i-th key with the i-th root's result, as far as both lists reach. With one root per value, the mapping has the caller's keys in order. |
| Standalone.ComponentsSequence | src/bokeh/embed/standalone.py:280-293 | A sequence yields the tuple whose i-th value is the i-th root's result: its div, or the root itself when unwrapped. There is one value per root, and unwrapped the tuple holds exactly the roots in order. |
| Standalone.AutoloadAndFileHtmlClassifyAlike | src/bokeh/embed/standalone.py:115-118 | A lone Model or Document reaches the scope as the same list from `autoload_static` as from `file_html` (:349-353): `[model]`, or the Document's roots in order. |
| Standalone.AutoloadStatic | src/bokeh/embed/standalone.py:115-137 | Anything that is not a Model or a Document is `ValueError`. Success requires exactly one render item with at least one root. The JavaScript and the tag are both built from that item's first root's element id. |
| Standalone.AutoloadMultiRootDocument | src/bokeh/embed/standalone.py:117-135 | A Document with several roots is accepted, and the tag uses only the first root's element id. |
| Standalone.FileHtmlObjects | src/bokeh/embed/standalone.py:349-355 | A Model becomes `[model]` and a Document its roots. A sequence of Models/Documents is used element for element. Other inputs are refused by the scope. |
| Standalone.FileHtml | src/bokeh/embed/standalone.py:349-362 | Errors come from classification or rendering. Otherwise the page is built from the rendered documents and items. Its title is the title precedence applied to `models_seq` as seen inside the scope, with each model's `document` as the scope has set it. |
| Standalone.FileHtmlTitle | src/bokeh/embed/standalone.py:357-359 | An explicit title is always the page title. Without one, models that have no document inside the scope get `DEFAULT_TITLE`. |
| Standalone.FileHtmlDocumentTitle | src/bokeh/embed/standalone.py:353-359 | `file_html(doc)` with no title, where the roots refer back to `doc` and the scope keeps them there, is titled with `doc`'s title. |
| Standalone.EmbedRecord | src/bokeh/embed/standalone.py:430-439 | The record requires exactly one document JSON with at least one root. Otherwise the failure is the unpacking `ValueError` or `IndexError`. The record holds the given target (possibly none), the first root's id, that JSON and the version. |
| Standalone.JsonItem | src/bokeh/embed/standalone.py:428-439 | The scope document's title is `""` afterwards and its roots are unchanged. A serializer failure is passed on. Otherwise the record is built from the JSON the serializer produced while the title was `""`. |

## Left out

- The insides of `OutputDocumentFor` (bokeh/embed/util.py is not part of this model). This covers theme application, creating and disposing the temporary document, and restoring roots afterwards. The scope and the serializer are one collaborator function of the scope's arguments and the requested objects. That function may fail.
- `standalone_docs_json` and `standalone_docs_json_and_render_items` are not modelled inside. They are arbitrary functions, so nothing is claimed about which roots a render item holds.
- Standalone.FileHtmlObjects: a non-sequence or a sequence with other elements is handed by `file_html` to `OutputDocumentFor`, which is not part of this model. The model reports it as `ScopeRejected` rather than repeating that function's own checks.
- Standalone.JsonItem: the scope's entry step (refusing the model, making a temporary document) is not modelled. The method receives the document the scope yields. Whether that document is the caller's own, whose title then stays cleared, is decided by the scope.
- Jinja2 templates (`AUTOLOAD_JS`, `AUTOLOAD_TAG`, `ROOT_DIV`, `FILE`, `MACROS`), `bundle_for_objs_and_resources`, `Script`, `bundle.scripts`, `wrap_in_onload`, `script_for_render_items` and `html_page_for_render_items` are string-producing collaborator functions. This includes the page template, `template_variables` and their override rule. `file_html`'s `template` and `template_variables` are therefore not parameters of the model.
- The template and bundle functions (`itemsScript`, `componentsScript`, `rootDiv`, `autoloadJs`, `autoloadTag`, `page`) are total: an exception raised while rendering a template is not modelled.
- Standalone.FileHtml: which document the scope attaches each model to (its own, or a temporary one) is decided inside `OutputDocumentFor`. The model takes it from the `scopeDocument` collaborator, so `file_html(doc)` is proved to carry `doc`'s title only when the scope keeps the roots in `doc`.
- `suppress_callback_warning` is only passed through to the serializer and is not a parameter of the model. Logging and the typing overloads are not modelled either.
- `RenderRoots.to_json()` is taken to keep one entry per root, in order, so its first item is the first root. This assumes root ids are distinct, which the module cannot see.
- A dict subclass is assumed to be constructible from `zip(keys, results)` like `dict`. A subclass whose constructor takes other arguments (`defaultdict`) would raise in the source; the model does not capture that.
- `DEFAULT_TITLE` ("Bokeh Application") and `__version__` come from modules that are not part of this model. The version is a field of `Collaborators`.
