/** The title rule of `file_html`: an explicit title, else the first
    document's title, else the title of the first model's document, else the
    default title. */
module Titles {

  import opened Outcomes
  import opened Objects

  /** `DEFAULT_TITLE` of bokeh/document/document.py. */
  const DefaultTitle: string := "Bokeh Application"

  /** A model that belongs to a document. */
  predicate IsOwned(x: ModelLike) {
    x.M? && x.model.document.Some?
  }

  /** The title of the first `Document` in the list. */
  function FirstDocumentTitle(ms: seq<ModelLike>): (t: Option<string>) {
    if |ms| == 0 then None
    else if ms[0].D? then Some(ms[0].doc.title)
    else FirstDocumentTitle(ms[1..])
  }

  /** The title of the document of the first model that has one. */
  function FirstOwnerTitle(ms: seq<ModelLike>): (t: Option<string>) {
    if |ms| == 0 then None
    else if IsOwned(ms[0]) then Some(ms[0].model.document.value.title)
    else FirstOwnerTitle(ms[1..])
  }

  /** The title chosen for a page showing `ms`. */
  function Title(ms: seq<ModelLike>, title: Option<string>): (t: string) {
    if title.Some? then title.value
    else match FirstDocumentTitle(ms)
      case Some(t) => t
      case None =>
        match FirstOwnerTitle(ms)
        case Some(t) => t
        case None => DefaultTitle
  }

  lemma {:induction false} FirstDocumentTitleAt(ms: seq<ModelLike>, i: nat)
    requires i < |ms| && ms[i].D?
    requires forall j :: 0 <= j < i ==> !ms[j].D?
    ensures FirstDocumentTitle(ms) == Some(ms[i].doc.title)
  {
    if i > 0 {
      FirstDocumentTitleAt(ms[1..], i - 1);
    }
  }

  lemma {:induction false} FirstDocumentTitleNone(ms: seq<ModelLike>)
    ensures FirstDocumentTitle(ms).None? <==> forall j :: 0 <= j < |ms| ==> !ms[j].D?
  {
    if |ms| > 0 {
      FirstDocumentTitleNone(ms[1..]);
      assert forall j :: 1 <= j < |ms| ==> ms[j] == ms[1..][j - 1];
    }
  }

  lemma {:induction false} FirstOwnerTitleAt(ms: seq<ModelLike>, i: nat)
    requires i < |ms| && IsOwned(ms[i])
    requires forall j :: 0 <= j < i ==> !IsOwned(ms[j])
    ensures FirstOwnerTitle(ms) == Some(ms[i].model.document.value.title)
  {
    if i > 0 {
      FirstOwnerTitleAt(ms[1..], i - 1);
    }
  }

  lemma {:induction false} FirstOwnerTitleNone(ms: seq<ModelLike>)
    ensures FirstOwnerTitle(ms).None? <==> forall j :: 0 <= j < |ms| ==> !IsOwned(ms[j])
  {
    if |ms| > 0 {
      FirstOwnerTitleNone(ms[1..]);
      assert forall j :: 1 <= j < |ms| ==> ms[j] == ms[1..][j - 1];
    }
  }

  /** The four-step precedence, each step stated by the position that decides it.
      An explicit title wins even when it is the empty string. */
  lemma TitlePrecedence(ms: seq<ModelLike>, title: Option<string>)
    ensures title.Some? ==> Title(ms, title) == title.value
    ensures forall i :: 0 <= i < |ms| && ms[i].D? && (forall j :: 0 <= j < i ==> !ms[j].D?) ==>
      Title(ms, None) == ms[i].doc.title
    ensures (forall j :: 0 <= j < |ms| ==> !ms[j].D?) ==>
      forall i :: 0 <= i < |ms| && IsOwned(ms[i]) && (forall j :: 0 <= j < i ==> !IsOwned(ms[j])) ==>
        Title(ms, None) == ms[i].model.document.value.title
    ensures (forall j :: 0 <= j < |ms| ==> !ms[j].D? && !IsOwned(ms[j])) ==>
      Title(ms, None) == DefaultTitle
  {
    FirstDocumentTitleNone(ms);
    FirstOwnerTitleNone(ms);
    forall i | 0 <= i < |ms| && ms[i].D? && (forall j :: 0 <= j < i ==> !ms[j].D?)
      ensures Title(ms, None) == ms[i].doc.title
    {
      FirstDocumentTitleAt(ms, i);
    }
    forall i | 0 <= i < |ms| && IsOwned(ms[i]) && (forall j :: 0 <= j < i ==> !IsOwned(ms[j]))
      ensures FirstOwnerTitle(ms) == Some(ms[i].model.document.value.title)
    {
      FirstOwnerTitleAt(ms, i);
    }
  }

  /** A list of models none of which belongs to a document gets the default
      title unless an explicit one is given. */
  lemma {:induction false} UnownedModelsGetDefaultTitle(ms: seq<Model>)
    requires forall i :: 0 <= i < |ms| ==> ms[i].document.None?
    ensures Title(seq(|ms|, i requires 0 <= i < |ms| => M(ms[i])), None) == DefaultTitle
  {
    var xs := seq(|ms|, i requires 0 <= i < |ms| => M(ms[i]));
    FirstDocumentTitleNone(xs);
    FirstOwnerTitleNone(xs);
  }
}
