/**
 * Vocabulary shared by the three Riksdagen tools (documents, calendar events
 * and members), which all query the same "dokumentlista" endpoint and, for
 * documents and calendar events, the same single-document endpoint.
 */
module Riksdagen {
  import opened Maybe
  import opened Http

  /** The `fmt` literal of the fetch tools: `"text" | "html" | "json"`. */
  datatype Format = Text | Html | Json

  /** The token of a format, which is also its file extension. */
  function Ext(fmt: Format): (e: string)
    ensures |e| == 4 && forall j :: 0 <= j < |e| ==> e[j] != '.' && e[j] != '/'
    ensures e == "text" <==> fmt == Text
    ensures e == "json" <==> fmt == Json
  {
    match fmt
    case Text => "text"
    case Html => "html"
    case Json => "json"
  }

  /** The `ValueError` the canonicaliser raises for an empty reference. */
  datatype ReferenceError = MissingReference

  /** Python truthiness of a `str | None` argument: present and non-empty. */
  predicate Truthy(o: Option<string>) {
    o.Some? && o.value != ""
  }

  /** The optional filters `make_request` accepts for a document-list query. */
  datatype ListFilters = ListFilters(
    doktyp: Option<string>,
    sok: Option<string>,
    rm: Option<string>,
    datum: Option<string>,
    tom: Option<string>,
    organ: Option<string>)

  /** The always-sent query keys of a document-list request. */
  const BaseKeys: set<string> := {"avd", "sort", "sortorder", "utformat"}

  /** The query keys of the optional filters; `organ` travels as `org`. */
  const FilterNames: set<string> := {"doktyp", "sok", "rm", "datum", "tom", "org"}

  /**
   * `params` is exactly the query of a document-list request for section `avd`:
   * the four fixed keys with the given values, and each truthy filter under its
   * wire name with its value, and nothing else.
   */
  ghost predicate IsListParams(
    params: map<string, string>, avd: string, f: ListFilters,
    sort: string, sortorder: string, utformat: string)
  {
    && (forall k :: k in params ==> k in BaseKeys || k in FilterNames)
    && "avd" in params && params["avd"] == avd
    && "sort" in params && params["sort"] == sort
    && "sortorder" in params && params["sortorder"] == sortorder
    && "utformat" in params && params["utformat"] == utformat
    && ("doktyp" in params <==> Truthy(f.doktyp)) && (Truthy(f.doktyp) ==> params["doktyp"] == f.doktyp.value)
    && ("sok" in params <==> Truthy(f.sok)) && (Truthy(f.sok) ==> params["sok"] == f.sok.value)
    && ("rm" in params <==> Truthy(f.rm)) && (Truthy(f.rm) ==> params["rm"] == f.rm.value)
    && ("datum" in params <==> Truthy(f.datum)) && (Truthy(f.datum) ==> params["datum"] == f.datum.value)
    && ("tom" in params <==> Truthy(f.tom)) && (Truthy(f.tom) ==> params["tom"] == f.tom.value)
    && ("org" in params <==> Truthy(f.organ)) && (Truthy(f.organ) ==> params["org"] == f.organ.value)
  }

  /**
   * A document-list query always carries the four fixed keys, never carries an
   * `organ` key, drops a filter given as `""` like one not given, and uses no key
   * outside the ten known ones.
   */
  lemma ListParamsKeys(
    params: map<string, string>, avd: string, f: ListFilters,
    sort: string, sortorder: string, utformat: string)
    requires IsListParams(params, avd, f, sort, sortorder, utformat)
    ensures BaseKeys <= params.Keys <= BaseKeys + FilterNames
    ensures "organ" !in params
    ensures f.organ == Some("") ==> "org" !in params
    ensures f.doktyp == Some("") ==> "doktyp" !in params
  {
  }

  /** The decoded top level of a dokumentlista reply; only `dokumentlista` is looked at. */
  datatype DokumentResponse<L> = DokumentResponse(dokumentlista: Option<L>)

  /** What a list tool returns: the list, or the empty-string sentinel for "nothing found". */
  datatype Listing<L> = Lista(lista: L) | NoResults

  /**
   * The tail of every list tool: `raise_for_status()`, then the `dokumentlista`
   * object when the reply has one (an object is always truthy), else `""`.
   */
  function SelectListing<L>(reply: Reply<DokumentResponse<L>>): (r: Outcome<Listing<L>>)
    ensures r.Raised? <==> !IsSuccess(reply.status)
    ensures r.Raised? ==> r.failure == StatusError(reply.status)
    ensures r == Returned(NoResults) <==> IsSuccess(reply.status) && reply.json.dokumentlista.None?
    ensures r.Returned? && r.value.Lista? ==> reply.json.dokumentlista == Some(r.value.lista)
  {
    if !IsSuccess(reply.status) then Raised(StatusError(reply.status))
    else match reply.json.dokumentlista
      case Some(l) => Returned(Lista(l))
      case None => Returned(NoResults)
  }

  /** The `Accept` header a fetch sends for a format. */
  function AcceptHeader(fmt: Format): (h: string)
    ensures h == "application/json" <==> fmt == Json
  {
    if fmt == Json then "application/json" else "text/plain, text/html; q=0.9, */*; q=0.8"
  }

  /** A fetched document: the parsed JSON detail, or the raw body text. */
  datatype Content<J> = Parsed(detail: J) | RawText(text: string)

  /**
   * What a fetch tool does: it returns `""` without any request when the reference
   * is refused, or it requests one URL with one `Accept` header and yields the content.
   */
  datatype Fetch<J> = Swallowed | Requested(url: string, accept: string, body: Outcome<Content<J>>)

  /**
   * The part of a fetch tool after the URL is known: choose the `Accept` header,
   * raise on a non-2xx reply, and return the parsed JSON for `json`, the text otherwise.
   */
  function Download<J>(url: string, fmt: Format, reply: Reply<J>): (r: Fetch<J>)
    ensures r.Requested? && r.url == url
    ensures r.accept == "application/json" <==> fmt == Json
    ensures r.body.Raised? <==> !IsSuccess(reply.status)
    ensures r.body.Raised? ==> r.body.failure == StatusError(reply.status)
    ensures r.body.Returned? ==> (r.body.value.Parsed? <==> fmt == Json)
    ensures r.body.Returned? && fmt == Json ==> r.body.value.detail == reply.json
    ensures r.body.Returned? && fmt != Json ==> r.body.value.text == reply.text
  {
    var accept := AcceptHeader(fmt);
    if !IsSuccess(reply.status) then Requested(url, accept, Raised(StatusError(reply.status)))
    else if fmt == Json then Requested(url, accept, Returned(Parsed(reply.json)))
    else Requested(url, accept, Returned(RawText(reply.text)))
  }
}
