/**
 * The member tool: listing members of parliament through the dokumentlista
 * endpoint with `avd=ledamot`, paged by `p` and `pagesize`.
 */
module Ledamot {
  import opened Maybe
  import opened PyStr
  import opened Http
  import opened Riksdagen

  /** The optional filters of a member query: text search, a date window and paging. */
  datatype MemberFilters = MemberFilters(
    sok: Option<string>,
    datum: Option<string>,
    tom: Option<string>,
    p: Option<int>,
    pagesize: Option<int>)

  /** The query keys of the optional member filters. */
  const MemberFilterNames: set<string> := {"sok", "datum", "tom", "p", "pagesize"}

  /**
   * `params` is exactly the query of a member listing: `avd=ledamot`, the caller's
   * sort, JSON output, each truthy text filter as given, and each page number that
   * is given as its decimal string, and nothing else.
   */
  ghost predicate IsMemberParams(params: map<string, string>, f: MemberFilters, sort: string, sortorder: string) {
    && (forall k :: k in params ==> k in BaseKeys || k in MemberFilterNames)
    && "avd" in params && params["avd"] == "ledamot"
    && "sort" in params && params["sort"] == sort
    && "sortorder" in params && params["sortorder"] == sortorder
    && "utformat" in params && params["utformat"] == "json"
    && ("sok" in params <==> Truthy(f.sok)) && (Truthy(f.sok) ==> params["sok"] == f.sok.value)
    && ("datum" in params <==> Truthy(f.datum)) && (Truthy(f.datum) ==> params["datum"] == f.datum.value)
    && ("tom" in params <==> Truthy(f.tom)) && (Truthy(f.tom) ==> params["tom"] == f.tom.value)
    && ("p" in params <==> f.p.Some?) && (f.p.Some? ==> params["p"] == IntToDecimal(f.p.value))
    && ("pagesize" in params <==> f.pagesize.Some?)
    && (f.pagesize.Some? ==> params["pagesize"] == IntToDecimal(f.pagesize.value))
  }

  /**
   * `_make_request`'s query: the fixed keys, then each truthy text filter and each
   * page number that is not `None` inserted in turn.
   */
  method MakeRequestParams(f: MemberFilters, sort: string := "rel", sortorder: string := "desc")
    returns (params: map<string, string>)
    ensures IsMemberParams(params, f, sort, sortorder)
  {
    params := map["avd" := "ledamot", "sort" := sort, "sortorder" := sortorder, "utformat" := "json"];
    if Truthy(f.sok) {
      params := params["sok" := f.sok.value];
    }
    if Truthy(f.datum) {
      params := params["datum" := f.datum.value];
    }
    if Truthy(f.tom) {
      params := params["tom" := f.tom.value];
    }
    if f.p.Some? {
      params := params["p" := IntToDecimal(f.p.value)];
    }
    if f.pagesize.Some? {
      params := params["pagesize" := IntToDecimal(f.pagesize.value)];
    }
  }

  /**
   * A member query always carries the four fixed keys, never carries a document
   * filter (`doktyp`, `rm`, `org`), drops an empty text filter, and sends page
   * number zero as `"0"` rather than dropping it.
   */
  lemma MemberParamsKeys(params: map<string, string>, f: MemberFilters, sort: string, sortorder: string)
    requires IsMemberParams(params, f, sort, sortorder)
    ensures BaseKeys <= params.Keys
    ensures "doktyp" !in params && "rm" !in params && "org" !in params && "organ" !in params
    ensures f.sok == Some("") ==> "sok" !in params
    ensures f.p == Some(0) ==> params["p"] == "0"
  {
  }

  /** A page number is sent as a decimal string that reads back as that number. */
  lemma PageParamsDecimal(params: map<string, string>, f: MemberFilters, sort: string, sortorder: string)
    requires IsMemberParams(params, f, sort, sortorder)
    ensures f.p.Some? && f.p.value >= 0 ==> AllDigits(params["p"]) && DecimalValue(params["p"]) == f.p.value
    ensures f.pagesize.Some? && f.pagesize.value >= 0
      ==> AllDigits(params["pagesize"]) && DecimalValue(params["pagesize"]) == f.pagesize.value
  {
    if f.p.Some? {
      IntToDecimalRoundTrip(f.p.value);
    }
    if f.pagesize.Some? {
      IntToDecimalRoundTrip(f.pagesize.value);
    }
  }

  /** Called without a sort, a member query sorts by relevance, descending. */
  method DefaultParams(f: MemberFilters) returns (params: map<string, string>)
    ensures IsMemberParams(params, f, "rel", "desc")
    ensures params["sort"] == "rel" && params["sortorder"] == "desc"
  {
    params := MakeRequestParams(f);
  }

  /**
   * `list_members_ledamot`: the query it sends and what it returns for the
   * server's reply: the dokumentlista, or `""` when there is none.
   */
  method ListMembersLedamot<L>(f: MemberFilters, sort: string, sortorder: string, reply: Reply<DokumentResponse<L>>)
    returns (params: map<string, string>, r: Outcome<Listing<L>>)
    ensures IsMemberParams(params, f, sort, sortorder)
    ensures r.Raised? <==> !IsSuccess(reply.status)
    ensures r == Returned(NoResults) <==> IsSuccess(reply.status) && reply.json.dokumentlista.None?
    ensures r.Returned? && r.value.Lista? ==> reply.json.dokumentlista == Some(r.value.lista)
  {
    params := MakeRequestParams(f, sort, sortorder);
    r := SelectListing(reply);
  }
}
