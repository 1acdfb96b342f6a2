/**
 * The taxeringsenhet typkod tools: look a type code up, search type codes by
 * description, and list them a page at a time, all against one rowstore dataset.
 */
module Typkoder {
  import opened Maybe
  import opened PyStr
  import opened Http
  import opened Rowstore

  /** One row of the dataset. */
  datatype TypKod = TypKod(typkod: string, beskrivning: string)

  /** The request model: two string filters and the rowstore's paging and callback parameters. */
  datatype TaxeringsenhetRequest = TaxeringsenhetRequest(
    typkod: Option<string>,
    beskrivning: Option<string>,
    limit: int,
    offset: int,
    callback: Option<string>)

  const TypkodMaxLength := 5
  const BeskrivningMaxLength := 100
  const MaxLimit := 100

  /** The length limits the request model puts on its two string fields. */
  predicate FiltersFit(typkod: Option<string>, beskrivning: Option<string>) {
    && (typkod.Some? ==> |typkod.value| <= TypkodMaxLength)
    && (beskrivning.Some? ==> |beskrivning.value| <= BeskrivningMaxLength)
  }

  /**
   * The request model's constructor as the code declares it: `_limit`, `_offset`
   * and `_callback` have leading underscores, which makes them private attributes
   * of the model, so the constructor ignores values passed for them and they keep
   * their defaults 10, 0 and `None`.  Only the string fields are validated.
   */
  function NewRequestAsWritten(typkod: Option<string>, beskrivning: Option<string>, limit: int, offset: int)
    : (r: Result<TaxeringsenhetRequest, Failure>)
    ensures r.Ok? <==> FiltersFit(typkod, beskrivning)
    ensures r.Err? ==> r.error == ValidationError
    ensures r.Ok? ==> r.value == TaxeringsenhetRequest(typkod, beskrivning, 10, 0, None)
  {
    if FiltersFit(typkod, beskrivning) then Ok(TaxeringsenhetRequest(typkod, beskrivning, 10, 0, None))
    else Err(ValidationError)
  }

  /**
   * The constructor as its declarations intend it: the string fields within their
   * length limits, a limit from 1 to 100 and a non-negative offset, all kept as given.
   */
  function NewRequestIntended(typkod: Option<string>, beskrivning: Option<string>, limit: int, offset: int)
    : (r: Result<TaxeringsenhetRequest, Failure>)
    ensures r.Ok? <==> FiltersFit(typkod, beskrivning) && 1 <= limit <= MaxLimit && 0 <= offset
    ensures r.Err? ==> r.error == ValidationError
    ensures r.Ok? ==> r.value == TaxeringsenhetRequest(typkod, beskrivning, limit, offset, None)
  {
    if FiltersFit(typkod, beskrivning) && 1 <= limit <= MaxLimit && 0 <= offset
    then Ok(TaxeringsenhetRequest(typkod, beskrivning, limit, offset, None))
    else Err(ValidationError)
  }

  /** The five parameters before filtering, each under its wire name. */
  function RawParams(req: TaxeringsenhetRequest): (params: map<string, Val>)
    ensures params.Keys == {"typkod", "beskrivning", "_limit", "_offset", "_callback"}
    ensures params["_limit"] == Int(req.limit) && params["_offset"] == Int(req.offset)
    ensures params["typkod"] == OptStr(req.typkod) && params["beskrivning"] == OptStr(req.beskrivning)
    ensures params["_callback"] == OptStr(req.callback)
  {
    map["typkod" := OptStr(req.typkod), "beskrivning" := OptStr(req.beskrivning),
        "_limit" := Int(req.limit), "_offset" := Int(req.offset), "_callback" := OptStr(req.callback)]
  }

  /** `make_request`'s query: the five parameters, without `None`s and `""`s, strings stripped. */
  function MakeRequestParams(req: TaxeringsenhetRequest): (params: map<string, Val>)
    ensures params.Keys <= {"typkod", "beskrivning", "_limit", "_offset", "_callback"}
    ensures "_limit" in params && "_offset" in params
  {
    Clean(RawParams(req))
  }

  /**
   * The query always carries the limit and the offset unchanged; it carries a string
   * parameter exactly when it is given and not empty, stripped; and it carries no
   * `_callback` when none is given.
   */
  lemma RequestParamsSpec(req: TaxeringsenhetRequest)
    ensures var params := MakeRequestParams(req);
      && params.Keys <= {"typkod", "beskrivning", "_limit", "_offset", "_callback"}
      && params["_limit"] == Int(req.limit) && params["_offset"] == Int(req.offset)
      && ("typkod" in params <==> req.typkod.Some? && req.typkod.value != "")
      && ("typkod" in params ==> params["typkod"] == Str(Strip(req.typkod.value)))
      && ("beskrivning" in params <==> req.beskrivning.Some? && req.beskrivning.value != "")
      && ("beskrivning" in params ==> params["beskrivning"] == Str(Strip(req.beskrivning.value)))
      && ("_callback" in params <==> req.callback.Some? && req.callback.value != "")
  {
    CleanCharacterised(RawParams(req));
  }

  /** Whatever paging a tool asks for, the request as written sends the first ten rows. */
  lemma PagingIgnoredAsWritten(typkod: Option<string>, beskrivning: Option<string>, limit: int, offset: int)
    requires FiltersFit(typkod, beskrivning)
    ensures var params := MakeRequestParams(NewRequestAsWritten(typkod, beskrivning, limit, offset).value);
      params["_limit"] == Int(10) && params["_offset"] == Int(0)
  {
    RequestParamsSpec(NewRequestAsWritten(typkod, beskrivning, limit, offset).value);
  }

  /** With the intended constructor a valid request sends the paging it was given. */
  lemma PagingSent(typkod: Option<string>, beskrivning: Option<string>, limit: int, offset: int)
    requires NewRequestIntended(typkod, beskrivning, limit, offset).Ok?
    ensures var params := MakeRequestParams(NewRequestIntended(typkod, beskrivning, limit, offset).value);
      params["_limit"] == Int(limit) && params["_offset"] == Int(offset)
  {
    RequestParamsSpec(NewRequestIntended(typkod, beskrivning, limit, offset).value);
  }

  /** What the single-code lookup returns: the first matching row, or the `""` sentinel. */
  datatype Lookup = Hit(row: TypKod) | Miss

  /** The lookup's answer from a reply: the first row, or `""` when there is none. */
  function FirstRow(reply: Reply<RawPage<TypKod>>): (r: Outcome<Lookup>)
    ensures r.Raised? <==> ReadPage(reply).Raised?
    ensures r.Returned? && r.value.Hit? ==>
      var page := ReadPage(reply).value; |page.results| > 0 && r.value.row == page.results[0]
    ensures r.Returned? ==> (r.value == Miss <==> ReadPage(reply).value.results == [])
  {
    match ReadPage(reply)
    case Raised(e) => Raised(e)
    case Returned(page) =>
      if |page.results| > 0 then Returned(Hit(page.results[0])) else Returned(Miss)
  }

  /** The description search's answer from a reply: its rows, with `[]` as the fallback. */
  function AllRows(reply: Reply<RawPage<TypKod>>): (r: Outcome<seq<TypKod>>)
    ensures r.Raised? <==> ReadPage(reply).Raised?
    ensures r.Returned? ==> r.value == ReadPage(reply).value.results
  {
    match ReadPage(reply)
    case Raised(e) => Raised(e)
    case Returned(page) =>
      if |page.results| > 0 then Returned(page.results) else Returned([])
  }

  /**
   * `get_taxeringsenhet_typkod`: a code longer than five characters is refused before
   * any request.  The `_limit=1` it passes is ignored by the request model, so it
   * asks for the default page of ten rows; the first row of the reply is returned,
   * or `""` when the reply has none.
   */
  function GetTaxeringsenhetTypkod(typkod: string, reply: Reply<RawPage<TypKod>>): (r: Call<Lookup>)
    ensures r.Invalid? <==> |typkod| > TypkodMaxLength
    ensures r.Sent? ==> r.params == MakeRequestParams(TaxeringsenhetRequest(Some(typkod), Some(""), 10, 0, None))
    ensures r.Sent? ==> r.outcome == FirstRow(reply)
  {
    match NewRequestAsWritten(Some(typkod), Some(""), 1, 0)
    case Err(_) => Invalid
    case Ok(req) => Sent(MakeRequestParams(req), FirstRow(reply))
  }

  /** The lookup as intended: the same, but asking for one row. */
  function GetTaxeringsenhetTypkodIntended(typkod: string, reply: Reply<RawPage<TypKod>>): (r: Call<Lookup>)
    ensures r.Invalid? <==> |typkod| > TypkodMaxLength
    ensures r.Sent? ==> r.params == MakeRequestParams(TaxeringsenhetRequest(Some(typkod), Some(""), 1, 0, None))
    ensures r.Sent? ==> r.outcome == FirstRow(reply)
  {
    match NewRequestIntended(Some(typkod), Some(""), 1, 0)
    case Err(_) => Invalid
    case Ok(req) => Sent(MakeRequestParams(req), FirstRow(reply))
  }

  /**
   * `get_taxeringsenhet_typkod_description`: a description longer than 100 characters
   * is refused.  The `_limit=100` it passes is ignored, so the default page of ten
   * rows is asked for, and the reply's rows are returned.
   */
  function GetTaxeringsenhetTypkodDescription(description: string, reply: Reply<RawPage<TypKod>>): (r: Call<seq<TypKod>>)
    ensures r.Invalid? <==> |description| > BeskrivningMaxLength
    ensures r.Sent? ==> r.params == MakeRequestParams(TaxeringsenhetRequest(Some(""), Some(description), 10, 0, None))
    ensures r.Sent? ==> r.outcome == AllRows(reply)
  {
    match NewRequestAsWritten(Some(""), Some(description), 100, 0)
    case Err(_) => Invalid
    case Ok(req) => Sent(MakeRequestParams(req), AllRows(reply))
  }

  /** The description search as intended: the same, but asking for up to 100 rows. */
  function GetTaxeringsenhetTypkodDescriptionIntended(description: string, reply: Reply<RawPage<TypKod>>): (r: Call<seq<TypKod>>)
    ensures r.Invalid? <==> |description| > BeskrivningMaxLength
    ensures r.Sent? ==> r.params == MakeRequestParams(TaxeringsenhetRequest(Some(""), Some(description), 100, 0, None))
    ensures r.Sent? ==> r.outcome == AllRows(reply)
  {
    match NewRequestIntended(Some(""), Some(description), 100, 0)
    case Err(_) => Invalid
    case Ok(req) => Sent(MakeRequestParams(req), AllRows(reply))
  }

  /**
   * `list_taxeringsenhet_typkoder`: the request has no filter and the paging passed
   * to it is ignored, so it is never refused and always asks for the first ten rows;
   * the validated reply is returned.
   */
  function ListTaxeringsenhetTypkoder(limit: int, offset: int, reply: Reply<RawPage<TypKod>>): (r: Call<Page<TypKod>>)
    ensures r.Sent?
    ensures r.params == MakeRequestParams(TaxeringsenhetRequest(Some(""), Some(""), 10, 0, None))
    ensures r.outcome == ReadPage(reply)
  {
    match NewRequestAsWritten(Some(""), Some(""), limit, offset)
    case Err(_) =>
      // Unreachable: only the two empty filters are validated, and they fit.
      assert false; Invalid
    case Ok(req) => Sent(MakeRequestParams(req), ReadPage(reply))
  }

  /**
   * The listing as intended: a limit outside 1 to 100 or a negative offset is
   * refused; otherwise the page asked for is requested.
   */
  function ListTaxeringsenhetTypkoderIntended(limit: int, offset: int, reply: Reply<RawPage<TypKod>>): (r: Call<Page<TypKod>>)
    ensures r.Invalid? <==> !(1 <= limit <= MaxLimit && 0 <= offset)
    ensures r.Sent? ==> r.params == MakeRequestParams(TaxeringsenhetRequest(Some(""), Some(""), limit, offset, None))
    ensures r.Sent? ==> r.outcome == ReadPage(reply)
  {
    match NewRequestIntended(Some(""), Some(""), limit, offset)
    case Err(_) => Invalid
    case Ok(req) => Sent(MakeRequestParams(req), ReadPage(reply))
  }

  /**
   * The lookup sends the stripped code, when it is not empty, with the default page
   * of ten rows, and never a description or a callback.
   */
  lemma LookupParams(typkod: string, reply: Reply<RawPage<TypKod>>)
    requires GetTaxeringsenhetTypkod(typkod, reply).Sent?
    ensures var params := GetTaxeringsenhetTypkod(typkod, reply).params;
      && ("typkod" in params <==> typkod != "")
      && "beskrivning" !in params && "_callback" !in params
      && params["_limit"] == Int(10) && params["_offset"] == Int(0)
      && (typkod != "" ==> params["typkod"] == Str(Strip(typkod)))
  {
    RequestParamsSpec(TaxeringsenhetRequest(Some(typkod), Some(""), 10, 0, None));
  }

  /** The intended lookup sends the same, with a page of one row. */
  lemma LookupParamsIntended(typkod: string, reply: Reply<RawPage<TypKod>>)
    requires GetTaxeringsenhetTypkodIntended(typkod, reply).Sent?
    ensures var params := GetTaxeringsenhetTypkodIntended(typkod, reply).params;
      && ("typkod" in params <==> typkod != "")
      && "beskrivning" !in params && "_callback" !in params
      && params["_limit"] == Int(1) && params["_offset"] == Int(0)
      && (typkod != "" ==> params["typkod"] == Str(Strip(typkod)))
  {
    RequestParamsSpec(TaxeringsenhetRequest(Some(typkod), Some(""), 1, 0, None));
  }

  /** A request with no filters and no callback sends nothing but its paging. */
  lemma PagingOnlyParams(limit: int, offset: int)
    ensures MakeRequestParams(TaxeringsenhetRequest(Some(""), Some(""), limit, offset, None))
         == map["_limit" := Int(limit), "_offset" := Int(offset)]
  {
    var raw := RawParams(TaxeringsenhetRequest(Some(""), Some(""), limit, offset, None));
    var m := map["_limit" := Int(limit), "_offset" := Int(offset)];
    assert DropEmpty(DropNone(raw)) == m by {
      assert DropNone(raw) == m["typkod" := Str("")]["beskrivning" := Str("")];
    }
    assert StripStrings(m) == m;
  }

  /** Whatever paging it is given, the listing sends exactly `_limit=10` and `_offset=0`. */
  lemma ListParams(limit: int, offset: int, reply: Reply<RawPage<TypKod>>)
    ensures ListTaxeringsenhetTypkoder(limit, offset, reply).params == map["_limit" := Int(10), "_offset" := Int(0)]
  {
    PagingOnlyParams(10, 0);
  }

  /** The intended listing sends nothing but the paging it was given. */
  lemma ListParamsIntended(limit: int, offset: int, reply: Reply<RawPage<TypKod>>)
    requires ListTaxeringsenhetTypkoderIntended(limit, offset, reply).Sent?
    ensures ListTaxeringsenhetTypkoderIntended(limit, offset, reply).params == map["_limit" := Int(limit), "_offset" := Int(offset)]
  {
    PagingOnlyParams(limit, offset);
  }
}
