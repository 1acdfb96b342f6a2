/**
 * The document tools: listing documents through the dokumentlista endpoint
 * (`avd=dokument`) and fetching one document by id or URL, with the document
 * reference canonicaliser they rely on.
 */
module Dokument {
  import opened Maybe
  import opened PyStr
  import opened Http
  import opened Riksdagen

  const DocumentBaseUrl := "https://data.riksdagen.se/dokument/"
  /** The origin a root-relative reference is joined to. */
  const DataHost := "https://data.riksdagen.se"
  /** The path segment that marks a document-content URL. */
  const DokumentSegment := "/dokument/"

  /** The URL starts with a scheme the canonicaliser keeps as it is. */
  predicate IsAbsolute(url: string) {
    StartsWith(url, "http://") || StartsWith(url, "https://")
  }

  /** The URL ends in one of the three format extensions. */
  predicate HasFormatExt(url: string) {
    EndsWith(url, ".text") || EndsWith(url, ".html") || EndsWith(url, ".json")
  }

  /**
   * First step of the canonicaliser: absolute URLs are kept, a protocol-relative
   * one gets `https:`, a root-relative one gets the data host, and anything else
   * is a dok_id placed under the document base with the requested extension.
   */
  function ResolvePrefix(value: string, fmt: Format): (r: string)
    ensures IsAbsolute(r)
    ensures IsAbsolute(value) ==> r == value
  {
    if StartsWith(value, "http://") || StartsWith(value, "https://") then value
    else if StartsWith(value, "//") then
      assert ("https:" + value)[..8] == "https:" + value[..2];
      "https:" + value
    else if StartsWith(value, "/") then
      assert (DataHost + value)[..8] == DataHost[..8];
      DataHost + value
    else
      assert (DocumentBaseUrl + value + "." + Ext(fmt))[..8] == DocumentBaseUrl[..8];
      DocumentBaseUrl + value + "." + Ext(fmt)
  }

  /**
   * Second step: on a URL containing `/dokument/`, a format extension is replaced
   * by the requested one, and then a `.txt` ending becomes `.text`.  Any other URL
   * is left alone.
   */
  function CoerceFormat(url: string, fmt: Format): (r: string)
    ensures r != url ==> Contains(url, DokumentSegment) && (HasFormatExt(url) || EndsWith(url, ".txt"))
  {
    if Contains(url, DokumentSegment) then
      var url' := if HasFormatExt(url) then RSplitHead(url, '.') + "." + Ext(fmt) else url;
      if EndsWith(url', ".txt") then url'[..|url'| - 4] + ".text" else url'
    else url
  }

  /** `_normalize_document_url`: one URL for a dok_id or URL, or an error for an empty reference. */
  function NormalizeDocumentUrl(value: string, fmt: Format): (r: Result<string, ReferenceError>)
    ensures r.Err? <==> value == ""
  {
    if value == "" then Err(MissingReference)
    else Ok(CoerceFormat(ResolvePrefix(value, fmt), fmt))
  }

  /** A `/dokument/` occurrence lies entirely before an ending that has no `/` in it. */
  lemma SegmentInHead(url: string, cut: nat)
    requires Contains(url, DokumentSegment) && cut <= |url|
    requires forall j :: |url| - cut <= j < |url| ==> url[j] != '/'
    ensures Contains(url[..|url| - cut], DokumentSegment)
  {
    var i :| 0 <= i <= |url| - |DokumentSegment| && OccursAt(url, DokumentSegment, i);
    assert url[i + 9] == url[i..i + 10][9] == '/';
    var head := url[..|url| - cut];
    assert head[i..i + 10] == url[i..i + 10];
    assert OccursAt(head, DokumentSegment, i);
  }

  /** Appending to a URL that contains `/dokument/` keeps it. */
  lemma ContainsExtended(head: string, tail: string)
    requires Contains(head, DokumentSegment)
    ensures Contains(head + tail, DokumentSegment)
  {
    var i :| 0 <= i <= |head| - |DokumentSegment| && OccursAt(head, DokumentSegment, i);
    assert (head + tail)[i..i + 10] == head[i..i + 10];
    assert OccursAt(head + tail, DokumentSegment, i);
  }

  /** Cutting off the end of a string and appending keeps a prefix that lies in what is kept. */
  lemma StartKept(s: string, n: nat, tail: string, prefix: string)
    requires StartsWith(s, prefix) && |prefix| <= n <= |s|
    ensures StartsWith(s[..n] + tail, prefix)
  {
    assert (s[..n] + tail)[..|prefix|] == s[..|prefix|];
  }

  /** Without `/dokument/` the second step changes nothing. */
  lemma CoerceWithoutSegment(url: string, fmt: Format)
    requires !Contains(url, DokumentSegment)
    ensures CoerceFormat(url, fmt) == url
  {
  }

  /** Before a format extension, the last `.` is the one that starts it. */
  lemma FormatExtHead(url: string)
    requires HasFormatExt(url)
    ensures RSplitHead(url, '.') == url[..|url| - 5]
  {
    var tail := url[|url| - 4..];
    FormatExtShape(url, tail);
    assert url[|url| - 5..] == [url[|url| - 5]] + tail;
    RSplitHeadBeforeTail(url, '.', tail);
  }

  /** A format extension is swapped for the requested one, keeping everything before the last `.`. */
  lemma CoerceFormatExt(url: string, fmt: Format)
    requires Contains(url, DokumentSegment) && HasFormatExt(url)
    ensures CoerceFormat(url, fmt) == url[..|url| - 5] + "." + Ext(fmt)
  {
    FormatExtHead(url);
    var url' := url[..|url| - 5] + "." + Ext(fmt);
    assert !EndsWith(url', ".txt") by {
      assert url'[|url'| - 4] == Ext(fmt)[0] != '.';
      assert url'[|url'| - 4] == url'[|url'| - 4..][0];
    }
  }

  /** A format extension is a `.` followed by four characters none of which is `.`. */
  lemma FormatExtShape(url: string, tail: string)
    requires HasFormatExt(url) && tail == url[|url| - 4..]
    ensures url[|url| - 5] == '.'
    ensures forall j :: 0 <= j < |tail| ==> tail[j] != '.'
  {
    var e := url[|url| - 5..];
    assert e == ".text" || e == ".html" || e == ".json";
    assert url[|url| - 5] == e[0];
    forall j | 0 <= j < |tail| ensures tail[j] != '.' {
      assert tail[j] == e[j + 1];
    }
  }

  /** A `.txt` ending becomes `.text`, whatever format was requested. */
  lemma CoerceTxt(url: string, fmt: Format)
    requires Contains(url, DokumentSegment) && EndsWith(url, ".txt")
    ensures CoerceFormat(url, fmt) == url[..|url| - 4] + ".text"
  {
    assert url[|url| - 4] == '.';
    assert !HasFormatExt(url) by {
      assert url[|url| - 4] == url[|url| - 5..][1];
    }
  }

  /** Any other ending is left alone. */
  lemma CoerceOtherEnding(url: string, fmt: Format)
    requires !HasFormatExt(url) && !EndsWith(url, ".txt")
    ensures CoerceFormat(url, fmt) == url
  {
  }

  /** The canonicaliser is its two steps run one after the other. */
  lemma NormalizeSteps(value: string, fmt: Format)
    requires value != ""
    ensures NormalizeDocumentUrl(value, fmt) == Ok(CoerceFormat(ResolvePrefix(value, fmt), fmt))
  {
  }

  /** A URL built from a dok_id contains `/dokument/` and ends in the format extension. */
  lemma BareIdUrlShape(value: string, fmt: Format)
    ensures var url := DocumentBaseUrl + value + "." + Ext(fmt);
      Contains(url, DokumentSegment) && HasFormatExt(url) && url[..|url| - 5] == DocumentBaseUrl + value
  {
    var url := DocumentBaseUrl + value + "." + Ext(fmt);
    assert url[25..35] == DokumentSegment;
    assert OccursAt(url, DokumentSegment, 25);
    assert url[|url| - 5..] == "." + Ext(fmt);
  }

  /** A non-empty dok_id is placed under the document base with the requested extension. */
  lemma BareIdUrl(value: string, fmt: Format)
    requires value != "" && !StartsWith(value, "/") && !IsAbsolute(value)
    ensures NormalizeDocumentUrl(value, fmt) == Ok(DocumentBaseUrl + value + "." + Ext(fmt))
  {
    var url := DocumentBaseUrl + value + "." + Ext(fmt);
    assert ResolvePrefix(value, fmt) == url;
    NormalizeSteps(value, fmt);
    BareIdUrlShape(value, fmt);
    CoerceFormatExt(url, fmt);
  }

  /** A protocol-relative `.html` document URL, after `https:` is put in front of it. */
  lemma ProtocolRelativeShape(host: string, id: string)
    ensures var p := "https:" + ("//" + host + DokumentSegment + id + ".html");
      Contains(p, DokumentSegment) && HasFormatExt(p) && p[..|p| - 5] == "https://" + host + DokumentSegment + id
  {
    var p := "https:" + ("//" + host + DokumentSegment + id + ".html");
    var k := 8 + |host|;
    assert p[k..k + 10] == DokumentSegment;
    assert OccursAt(p, DokumentSegment, k);
    assert p[|p| - 5..] == ".html";
  }

  /** A protocol-relative `.html` document URL gets `https:` and the requested extension. */
  lemma ProtocolRelativeUrl(host: string, id: string, fmt: Format)
    ensures NormalizeDocumentUrl("//" + host + DokumentSegment + id + ".html", fmt)
         == Ok("https://" + host + DokumentSegment + id + "." + Ext(fmt))
  {
    var value := "//" + host + DokumentSegment + id + ".html";
    var p := "https:" + value;
    assert ResolvePrefix(value, fmt) == p by {
      assert value[..2] == "//";
      ResolvePrefixCases(value, fmt);
    }
    assert CoerceFormat(p, fmt) == "https://" + host + DokumentSegment + id + "." + Ext(fmt) by {
      ProtocolRelativeShape(host, id);
      CoerceFormatExt(p, fmt);
    }
    NormalizeSteps(value, fmt);
  }

  /** A root-relative `.txt` document path, after it is joined to the data host. */
  lemma RootRelativeTxtShape(id: string)
    ensures var p := DataHost + (DokumentSegment + id + ".txt");
      Contains(p, DokumentSegment) && EndsWith(p, ".txt") && p[..|p| - 4] == DataHost + DokumentSegment + id
  {
    var p := DataHost + (DokumentSegment + id + ".txt");
    assert p[25..35] == DokumentSegment;
    assert OccursAt(p, DokumentSegment, 25);
    assert p[|p| - 4..] == ".txt";
  }

  /** A root-relative `.txt` document path is joined to the data host and ends in `.text`, whatever the format. */
  lemma RootRelativeTxt(id: string, fmt: Format)
    ensures NormalizeDocumentUrl(DokumentSegment + id + ".txt", fmt) == Ok(DataHost + DokumentSegment + id + ".text")
  {
    var value := DokumentSegment + id + ".txt";
    NormalizeSteps(value, fmt);
    assert value[..2] == "/d";
    ResolvePrefixCases(value, fmt);
    RootRelativeTxtShape(id);
    CoerceTxt(DataHost + value, fmt);
  }

  /**
   * The first step on each kind of reference: `http://` and `https://` URLs are
   * kept (no scheme upgrade), `//x` becomes `https://x`, `/x` is joined to the data host.
   */
  lemma ResolvePrefixCases(value: string, fmt: Format)
    ensures IsAbsolute(value) ==> ResolvePrefix(value, fmt) == value
    ensures StartsWith(value, "//") ==> ResolvePrefix(value, fmt) == "https:" + value
    ensures StartsWith(value, "/") && !StartsWith(value, "//") ==> ResolvePrefix(value, fmt) == DataHost + value
  {
    if StartsWith(value, "/") {
      assert !IsAbsolute(value) by {
        assert value[0] == '/';
      }
    }
  }

  /** The second step never touches the first ten characters, so it keeps any scheme. */
  lemma CoerceFormatKeepsStart(url: string, fmt: Format, prefix: string)
    requires StartsWith(url, prefix) && |prefix| <= |DokumentSegment|
    ensures StartsWith(CoerceFormat(url, fmt), prefix)
  {
    if Contains(url, DokumentSegment) && HasFormatExt(url) {
      CoerceFormatExt(url, fmt);
      FormatExtNoSlash(url);
      SegmentInHead(url, 5);
      StartKept(url, |url| - 5, "." + Ext(fmt), prefix);
    } else if Contains(url, DokumentSegment) && EndsWith(url, ".txt") {
      CoerceTxt(url, fmt);
      TxtNoSlash(url);
      SegmentInHead(url, 4);
      StartKept(url, |url| - 4, ".text", prefix);
    }
  }

  /** Every canonical URL is absolute, and an `http://` reference stays `http://`. */
  lemma NormalizedIsAbsolute(value: string, fmt: Format)
    requires value != ""
    ensures IsAbsolute(NormalizeDocumentUrl(value, fmt).value)
    ensures StartsWith(value, "http://") ==> StartsWith(NormalizeDocumentUrl(value, fmt).value, "http://")
  {
    var p := ResolvePrefix(value, fmt);
    if StartsWith(p, "http://") {
      CoerceFormatKeepsStart(p, fmt, "http://");
    } else {
      CoerceFormatKeepsStart(p, fmt, "https://");
    }
  }

  /** The reference whose `.txt` ending the canonicaliser rewrites to `.text`. */
  predicate RewritesTxt(value: string, fmt: Format) {
    var p := ResolvePrefix(value, fmt);
    Contains(p, DokumentSegment) && EndsWith(p, ".txt")
  }

  /** A `/dokument/` URL ending in `.txt` comes out ending in `.text`, whatever format was asked for. */
  lemma TxtBecomesText(value: string, fmt: Format)
    requires value != "" && RewritesTxt(value, fmt)
    ensures var p := ResolvePrefix(value, fmt);
      NormalizeDocumentUrl(value, fmt) == Ok(p[..|p| - 4] + ".text")
  {
    var p := ResolvePrefix(value, fmt);
    assert CoerceFormat(p, fmt) == p[..|p| - 4] + ".text" by {
      CoerceTxt(p, fmt);
    }
    NormalizeSteps(value, fmt);
  }

  /**
   * A `/dokument/` URL that ends in any format extension comes out with the
   * requested one in its place and everything before it kept.
   */
  lemma CoerceHeadExt(head: string, e: Format, fmt: Format)
    requires Contains(head, DokumentSegment)
    ensures CoerceFormat(head + "." + Ext(e), fmt) == head + "." + Ext(fmt)
  {
    var q := head + "." + Ext(e);
    ContainsExtended(head, "." + Ext(e));
    assert q == head + ("." + Ext(e));
    assert q[|q| - 5..] == "." + Ext(e);
    EndsInFormatExt(q, e);
    CoerceFormatExt(q, fmt);
    assert q[..|q| - 5] == head;
  }

  /** A URL ending in `.` and a format's extension ends in a format extension. */
  lemma EndsInFormatExt(url: string, e: Format)
    requires EndsWith(url, "." + Ext(e))
    ensures HasFormatExt(url)
  {
    match e
    case Text => assert "." + Ext(e) == ".text";
    case Html => assert "." + Ext(e) == ".html";
    case Json => assert "." + Ext(e) == ".json";
  }

  /** The last five characters of a URL ending in a format extension hold no `/`. */
  lemma FormatExtNoSlash(url: string)
    requires HasFormatExt(url)
    ensures forall j :: |url| - 5 <= j < |url| ==> url[j] != '/'
  {
    var e := url[|url| - 5..];
    assert e == ".text" || e == ".html" || e == ".json";
    forall j | |url| - 5 <= j < |url| ensures url[j] != '/' {
      assert url[j] == e[j - (|url| - 5)];
    }
  }

  /** The last four characters of a URL ending in `.txt` hold no `/`. */
  lemma TxtNoSlash(url: string)
    requires EndsWith(url, ".txt")
    ensures forall j :: |url| - 4 <= j < |url| ==> url[j] != '/'
  {
    var e := url[|url| - 4..];
    forall j | |url| - 4 <= j < |url| ensures url[j] != '/' {
      assert url[j] == e[j - (|url| - 4)];
    }
  }

  /** A URL whose format extension was swapped is left alone by a second pass. */
  lemma CoerceIdempotentOnExt(url: string, fmt: Format)
    requires Contains(url, DokumentSegment) && HasFormatExt(url)
    ensures CoerceFormat(CoerceFormat(url, fmt), fmt) == CoerceFormat(url, fmt)
  {
    CoerceFormatExt(url, fmt);
    FormatExtNoSlash(url);
    SegmentInHead(url, 5);
    CoerceHeadExt(url[..|url| - 5], fmt, fmt);
  }

  /** Under the `text` format, a URL whose `.txt` became `.text` is left alone by a second pass. */
  lemma CoerceIdempotentOnTxt(url: string)
    requires Contains(url, DokumentSegment) && EndsWith(url, ".txt")
    ensures CoerceFormat(CoerceFormat(url, Text), Text) == CoerceFormat(url, Text)
  {
    CoerceTxt(url, Text);
    TxtNoSlash(url);
    SegmentInHead(url, 4);
    CoerceHeadExt(url[..|url| - 4], Text, Text);
    assert url[..|url| - 4] + "." + Ext(Text) == url[..|url| - 4] + ".text";
  }

  /** Apart from a `.txt` rewrite under another format, the second step is idempotent. */
  lemma CoerceFormatIdempotent(url: string, fmt: Format)
    requires !(Contains(url, DokumentSegment) && EndsWith(url, ".txt") && fmt != Text)
    ensures CoerceFormat(CoerceFormat(url, fmt), fmt) == CoerceFormat(url, fmt)
  {
    if Contains(url, DokumentSegment) && HasFormatExt(url) {
      CoerceIdempotentOnExt(url, fmt);
    } else if Contains(url, DokumentSegment) && EndsWith(url, ".txt") {
      CoerceIdempotentOnTxt(url);
    }
  }

  /**
   * Canonicalising a canonical URL again with the same format changes nothing,
   * except when the first pass rewrote `.txt` and the format is not `text`.
   */
  lemma NormalizeIdempotent(value: string, fmt: Format)
    requires value != ""
    requires fmt == Text || !RewritesTxt(value, fmt)
    ensures NormalizeDocumentUrl(NormalizeDocumentUrl(value, fmt).value, fmt) == NormalizeDocumentUrl(value, fmt)
  {
    var p := ResolvePrefix(value, fmt);
    var u := CoerceFormat(p, fmt);
    NormalizeSteps(value, fmt);
    NormalizedIsAbsolute(value, fmt);
    ResolvePrefixCases(u, fmt);
    NormalizeSteps(u, fmt);
    CoerceFormatIdempotent(p, fmt);
  }

  /** In the excepted case the second pass turns the `.text` into the requested extension. */
  lemma NormalizeNotIdempotentForTxt(value: string, fmt: Format)
    requires value != "" && fmt != Text && RewritesTxt(value, fmt)
    ensures NormalizeDocumentUrl(NormalizeDocumentUrl(value, fmt).value, fmt) != NormalizeDocumentUrl(value, fmt)
  {
    var p := ResolvePrefix(value, fmt);
    var head := p[..|p| - 4];
    var u := NormalizeDocumentUrl(value, fmt).value;
    assert u == head + ".text" by {
      TxtBecomesText(value, fmt);
    }
    assert Contains(head, DokumentSegment) by {
      TxtNoSlash(p);
      SegmentInHead(p, 4);
    }
    assert ResolvePrefix(u, fmt) == u by {
      NormalizedIsAbsolute(value, fmt);
    }
    assert CoerceFormat(u, fmt) != u by {
      TextSwappedAgain(head, fmt);
    }
    NormalizeSteps(u, fmt);
  }

  /** Under another format, a `/dokument/` URL ending in `.text` does not survive the second step. */
  lemma TextSwappedAgain(head: string, fmt: Format)
    requires Contains(head, DokumentSegment) && fmt != Text
    ensures CoerceFormat(head + ".text", fmt) != head + ".text"
  {
    CoerceHeadExt(head, Text, fmt);
    var u := head + "." + Ext(Text);
    assert u == head + ".text";
    assert (head + "." + Ext(fmt))[|u| - 4..] == Ext(fmt);
    assert u[|u| - 4..] == Ext(Text);
  }

  /**
   * `make_request`'s query for `avd=dokument`: the fixed keys, then each truthy
   * filter inserted in turn, `organ` under the key `org`.
   */
  method MakeRequestParams(f: ListFilters, sort: string := "rel", sortorder: string := "desc", utformat: string := "json")
    returns (params: map<string, string>)
    ensures IsListParams(params, "dokument", f, sort, sortorder, utformat)
  {
    params := map["avd" := "dokument", "sort" := sort, "sortorder" := sortorder, "utformat" := utformat];
    if Truthy(f.doktyp) {
      params := params["doktyp" := f.doktyp.value];
    }
    if Truthy(f.sok) {
      params := params["sok" := f.sok.value];
    }
    if Truthy(f.rm) {
      params := params["rm" := f.rm.value];
    }
    if Truthy(f.datum) {
      params := params["datum" := f.datum.value];
    }
    if Truthy(f.tom) {
      params := params["tom" := f.tom.value];
    }
    if Truthy(f.organ) {
      params := params["org" := f.organ.value];
    }
  }

  /**
   * `list_documents`: the query it sends (JSON output, the caller's sort) and what it
   * returns for the server's reply: the dokumentlista, or `""` when there is none.
   */
  method ListDocuments<L>(f: ListFilters, sort: string, sortorder: string, reply: Reply<DokumentResponse<L>>)
    returns (params: map<string, string>, r: Outcome<Listing<L>>)
    ensures IsListParams(params, "dokument", f, sort, sortorder, "json")
    ensures r.Raised? <==> !IsSuccess(reply.status)
    ensures r == Returned(NoResults) <==> IsSuccess(reply.status) && reply.json.dokumentlista.None?
    ensures r.Returned? && r.value.Lista? ==> reply.json.dokumentlista == Some(r.value.lista)
  {
    params := MakeRequestParams(f, sort, sortorder);
    r := SelectListing(reply);
  }

  /**
   * `fetch_document`: an empty reference is swallowed into `""` before any request;
   * otherwise the canonical URL is requested with the format's `Accept` header.
   */
  function FetchDocument<J>(dokIdOrUrl: string, fmt: Format, reply: Reply<J>): (r: Fetch<J>)
    ensures r.Swallowed? <==> dokIdOrUrl == ""
    ensures r.Requested? ==> r == Download(NormalizeDocumentUrl(dokIdOrUrl, fmt).value, fmt, reply)
  {
    match NormalizeDocumentUrl(dokIdOrUrl, fmt)
    case Err(_) => Swallowed
    case Ok(url) => Download(url, fmt, reply)
  }
}
