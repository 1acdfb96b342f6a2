/**
 * The calendar tools: listing calendar events through the dokumentlista
 * endpoint (`avd=kalender`) and fetching one event document.  The module
 * carries its own copy of the document reference canonicaliser, as the
 * calendar source file does.
 */
module Kalender {
  import opened Maybe
  import opened PyStr
  import opened Http
  import opened Riksdagen
  import Dokument

  const DocumentBaseUrl := "https://data.riksdagen.se/dokument/"

  /** The calendar file's first canonicalising step: fix up the prefix, or build a URL from a dok_id. */
  function ResolvePrefix(value: string, fmt: Format): (r: string)
    ensures r == Dokument.ResolvePrefix(value, fmt)
  {
    if StartsWith(value, "http://") || StartsWith(value, "https://") then value
    else if StartsWith(value, "//") then "https:" + value
    else if StartsWith(value, "/") then "https://data.riksdagen.se" + value
    else DocumentBaseUrl + value + "." + Ext(fmt)
  }

  /** The calendar file's second step: swap a format extension, then turn `.txt` into `.text`. */
  function CoerceFormat(url: string, fmt: Format): (r: string)
    ensures r == Dokument.CoerceFormat(url, fmt)
  {
    if Contains(url, "/dokument/") then
      var url' :=
        if EndsWith(url, ".text") || EndsWith(url, ".html") || EndsWith(url, ".json")
        then RSplitHead(url, '.') + "." + Ext(fmt)
        else url;
      if EndsWith(url', ".txt") then url'[..|url'| - 4] + ".text" else url'
    else url
  }

  /** The calendar file's `_normalize_document_url`. */
  function NormalizeDocumentUrl(value: string, fmt: Format): (r: Result<string, ReferenceError>)
    ensures r.Err? <==> value == ""
  {
    if value == "" then Err(MissingReference)
    else Ok(CoerceFormat(ResolvePrefix(value, fmt), fmt))
  }

  /** The calendar copy computes the same function as the document copy. */
  lemma SameAsDokument(value: string, fmt: Format)
    ensures NormalizeDocumentUrl(value, fmt) == Dokument.NormalizeDocumentUrl(value, fmt)
  {
    if value != "" {
      Dokument.NormalizeSteps(value, fmt);
    }
  }

  /*
   * The two docstring examples below name their strings as parameters that the
   * precondition pins to the example's values: the proof then works on the
   * concatenation's parts, which is much cheaper than on one long literal.
   */

  /** Docstring example: the dok_id `HD096` asked for as `text` is `https://data.riksdagen.se/dokument/HD096.text`. */
  lemma DocExampleDokId(id: string)
    requires id == "HD096"
    ensures NormalizeDocumentUrl(id, Text) == Ok("https://data.riksdagen.se/dokument/" + id + ".text")
  {
    SameAsDokument(id, Text);
    assert !StartsWith(id, "/") && !Dokument.IsAbsolute(id) by {
      assert id[0] == 'H';
    }
    Dokument.BareIdUrl(id, Text);
    assert Dokument.DocumentBaseUrl + id + "." + Ext(Text) == "https://data.riksdagen.se/dokument/" + id + ".text";
  }

  /** Docstring example: `//data.riksdagen.se/dokument/HD096.html` asked for as `json` becomes the https `.json` URL. */
  lemma DocExampleProtocolRelative(host: string, id: string)
    requires host == "data.riksdagen.se" && id == "HD096"
    ensures NormalizeDocumentUrl("//" + host + "/dokument/" + id + ".html", Json)
         == Ok("https://" + host + "/dokument/" + id + ".json")
  {
    SameAsDokument("//" + host + "/dokument/" + id + ".html", Json);
    Dokument.ProtocolRelativeUrl(host, id, Json);
    assert "https://" + host + "/dokument/" + id + "." + Ext(Json) == "https://" + host + "/dokument/" + id + ".json";
  }

  /**
   * A root-relative `.txt` document path (the docstring's `/dokument/HD096.txt`) ends in
   * `.text` under the data host for every requested format, so it ends in the requested
   * format only when that is `text`.
   */
  lemma RootRelativeTxt(id: string, fmt: Format)
    ensures NormalizeDocumentUrl(Dokument.DokumentSegment + id + ".txt", fmt)
         == Ok(Dokument.DataHost + Dokument.DokumentSegment + id + ".text")
  {
    SameAsDokument(Dokument.DokumentSegment + id + ".txt", fmt);
    Dokument.RootRelativeTxt(id, fmt);
  }

  /**
   * `make_request`'s query for `avd=kalender`: the fixed keys, then each truthy
   * filter inserted in turn, `organ` under the key `org`.
   */
  method MakeRequestParams(f: ListFilters, sort: string := "rel", sortorder: string := "desc", utformat: string := "json")
    returns (params: map<string, string>)
    ensures IsListParams(params, "kalender", f, sort, sortorder, utformat)
  {
    params := map["avd" := "kalender", "sort" := sort, "sortorder" := sortorder, "utformat" := utformat];
    if Truthy(f.doktyp) {
      params := params["doktyp" := f.doktyp.value];
    }
    if Truthy(f.sok) {
      params := params["sok" := f.sok.value];
    }
    if Truthy(f.rm) {
      params := params["rm" := f.rm.value];
    }
    if Truthy(f.datum) {
      params := params["datum" := f.datum.value];
    }
    if Truthy(f.tom) {
      params := params["tom" := f.tom.value];
    }
    if Truthy(f.organ) {
      params := params["org" := f.organ.value];
    }
  }

  /**
   * `list_kalender_handelser`: the query it sends and what it returns for the
   * server's reply: the dokumentlista, or `""` when there is none.
   */
  method ListKalenderHandelser<L>(f: ListFilters, sort: string, sortorder: string, reply: Reply<DokumentResponse<L>>)
    returns (params: map<string, string>, r: Outcome<Listing<L>>)
    ensures IsListParams(params, "kalender", f, sort, sortorder, "json")
    ensures r.Raised? <==> !IsSuccess(reply.status)
    ensures r == Returned(NoResults) <==> IsSuccess(reply.status) && reply.json.dokumentlista.None?
    ensures r.Returned? && r.value.Lista? ==> reply.json.dokumentlista == Some(r.value.lista)
  {
    params := MakeRequestParams(f, sort, sortorder);
    r := SelectListing(reply);
  }

  /**
   * `fetch_kalender_handelse`: an empty reference is swallowed into `""` before any
   * request; otherwise the canonical URL is requested with the format's `Accept` header.
   */
  function FetchKalenderHandelse<J>(dokIdOrUrl: string, fmt: Format, reply: Reply<J>): (r: Fetch<J>)
    ensures r.Swallowed? <==> dokIdOrUrl == ""
    ensures r.Requested? ==> r == Download(NormalizeDocumentUrl(dokIdOrUrl, fmt).value, fmt, reply)
  {
    match NormalizeDocumentUrl(dokIdOrUrl, fmt)
    case Err(_) => Swallowed
    case Ok(url) => Download(url, fmt, reply)
  }
}
