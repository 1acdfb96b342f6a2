/**
 * The fastighetsskatt and avgift tools: search the property-tax statistics with
 * up to seven column filters, or list them a page at a time, against one
 * rowstore dataset.
 */
module Fastighetsskatt {
  import opened Maybe
  import opened PyStr
  import opened Http
  import opened Rowstore

  /** One row of the dataset; every column is a string. */
  datatype SkattAvgift = SkattAvgift(
    uppdateringsdatum: Option<string>,
    gruppering: Option<string>,
    antal: string,
    statistikterm: Option<string>,
    belopp: Option<string>,
    inkomstar: Option<string>,
    grupperingsvarde: Option<string>)

  /**
   * A field of the request model: never given to the constructor, or given a
   * value, which may be `None`.
   */
  datatype Setting = Unset | SetTo(value: Option<string>)

  /** The request model: seven column filters and the rowstore's paging parameters. */
  datatype FastighetsskattAvgiftRequest = FastighetsskattAvgiftRequest(
    uppdateringsdatum: Setting,
    gruppering: Setting,
    statistikterm: Setting,
    antal: Setting,
    belopp: Setting,
    grupperingsvarde: Setting,
    inkomstar: Setting,
    limit: int,
    offset: int)

  const MaxLimit := 500
  const MaxOffset := 50

  /** The wire names of the seven filters; `grupperingsvarde` travels under its alias `grupperingsvärde`. */
  const FilterNames: set<string> :=
    {"uppdateringsdatum", "gruppering", "statistikterm", "antal", "belopp", "grupperingsvärde", "inkomstar"}

  /** The filter sent under wire name `k`, or `Unset` for a name that is not a filter's. */
  function FieldAt(req: FastighetsskattAvgiftRequest, k: string): (s: Setting)
    ensures k !in FilterNames ==> s == Unset
  {
    if k == "uppdateringsdatum" then req.uppdateringsdatum
    else if k == "gruppering" then req.gruppering
    else if k == "statistikterm" then req.statistikterm
    else if k == "antal" then req.antal
    else if k == "belopp" then req.belopp
    else if k == "grupperingsvärde" then req.grupperingsvarde
    else if k == "inkomstar" then req.inkomstar
    else Unset
  }

  /**
   * The request model's constructor as the code declares it, with every argument
   * passed by field name, as both tools pass them.  `_limit` and `_offset` have
   * leading underscores, which makes them private attributes, so the values passed
   * for them are ignored and they keep their defaults 10 and 0.  The grouping value
   * has the alias `grupperingsvärde`, and the model's configuration key
   * `allow_population_by_field_name` is the pydantic 1 spelling, which pydantic 2
   * does not honour: the argument `grupperingsvarde` is an ignored extra, and that
   * field stays unset.
   */
  function NewRequestAsWritten(
    uppdateringsdatum: Setting, gruppering: Setting, statistikterm: Setting, antal: Setting,
    belopp: Setting, grupperingsvarde: Setting, inkomstar: Setting, limit: int, offset: int)
    : (r: FastighetsskattAvgiftRequest)
    ensures r.limit == 10 && r.offset == 0
    ensures r.grupperingsvarde == Unset
    ensures forall k :: k != "grupperingsvärde" ==> FieldAt(r, k) == FieldAt(FastighetsskattAvgiftRequest(
      uppdateringsdatum, gruppering, statistikterm, antal, belopp, grupperingsvarde, inkomstar, limit, offset), k)
  {
    FastighetsskattAvgiftRequest(uppdateringsdatum, gruppering, statistikterm, antal, belopp, Unset, inkomstar, 10, 0)
  }

  /**
   * The constructor as its declarations intend it: every filter kept, including the
   * grouping value given by field name, and a limit from 1 to 500 and an offset
   * from 0 to 50, kept as given.
   */
  function NewRequestIntended(
    uppdateringsdatum: Setting, gruppering: Setting, statistikterm: Setting, antal: Setting,
    belopp: Setting, grupperingsvarde: Setting, inkomstar: Setting, limit: int, offset: int)
    : (r: Result<FastighetsskattAvgiftRequest, Failure>)
    ensures r.Ok? <==> 1 <= limit <= MaxLimit && 0 <= offset <= MaxOffset
    ensures r.Err? ==> r.error == ValidationError
    ensures r.Ok? ==> r.value == FastighetsskattAvgiftRequest(
      uppdateringsdatum, gruppering, statistikterm, antal, belopp, grupperingsvarde, inkomstar, limit, offset)
  {
    if 1 <= limit <= MaxLimit && 0 <= offset <= MaxOffset then
      Ok(FastighetsskattAvgiftRequest(uppdateringsdatum, gruppering, statistikterm, antal, belopp, grupperingsvarde, inkomstar, limit, offset))
    else Err(ValidationError)
  }

  /** A filter that was given a string value. */
  predicate IsSetString(s: Setting) {
    s.SetTo? && s.value.Some?
  }

  /**
   * `model_dump(by_alias=True, exclude_none=True, exclude_unset=True)` as the code
   * declares the model: each filter given a string, under its wire name; the
   * private paging attributes are no part of the dump.
   */
  function ModelDumpAsWritten(req: FastighetsskattAvgiftRequest): (dump: map<string, Val>)
    ensures dump.Keys <= FilterNames
    ensures forall k :: k in dump <==> IsSetString(FieldAt(req, k))
    ensures forall k :: k in dump ==> IsSetString(FieldAt(req, k)) && dump[k] == Str(FieldAt(req, k).value.value)
  {
    map k | k in FilterNames && IsSetString(FieldAt(req, k)) :: Str(FieldAt(req, k).value.value)
  }

  /** The dump as intended: the filters as above, with the limit and offset as `_limit` and `_offset`. */
  function ModelDumpIntended(req: FastighetsskattAvgiftRequest): (dump: map<string, Val>)
    ensures dump.Keys == ModelDumpAsWritten(req).Keys + {"_limit", "_offset"}
    ensures dump["_limit"] == Int(req.limit) && dump["_offset"] == Int(req.offset)
    ensures forall k :: k in ModelDumpAsWritten(req) ==> dump[k] == ModelDumpAsWritten(req)[k]
  {
    ModelDumpAsWritten(req)["_limit" := Int(req.limit)]["_offset" := Int(req.offset)]
  }

  /**
   * `make_request`'s query: the dump without `""`s, strings stripped.  A value is
   * sent exactly when it is not `""`; a string goes stripped, anything else unchanged.
   */
  function MakeRequestParams(dump: map<string, Val>): (params: map<string, Val>)
    ensures forall k :: k in params <==> k in dump && dump[k] != Str("")
    ensures forall k :: k in params ==> params[k] == StripVal(dump[k])
  {
    StripStrings(DropEmpty(dump))
  }

  /** With no `None` in the dump, skipping the `None` filter changes nothing: the query is the common cleaning. */
  lemma SameAsClean(req: FastighetsskattAvgiftRequest)
    ensures MakeRequestParams(ModelDumpIntended(req)) == Clean(ModelDumpIntended(req))
    ensures MakeRequestParams(ModelDumpAsWritten(req)) == Clean(ModelDumpAsWritten(req))
  {
    assert DropNone(ModelDumpIntended(req)) == ModelDumpIntended(req);
    assert DropNone(ModelDumpAsWritten(req)) == ModelDumpAsWritten(req);
  }

  /**
   * As the code declares the model, the query carries a filter exactly when it was
   * given a non-empty string, under its wire name and stripped, and never any paging.
   */
  lemma RequestParamsSpec(req: FastighetsskattAvgiftRequest)
    ensures var params := MakeRequestParams(ModelDumpAsWritten(req));
      && params.Keys <= FilterNames
      && "_limit" !in params && "_offset" !in params
      && (forall k :: k in params <==> IsSetString(FieldAt(req, k)) && FieldAt(req, k).value.value != "")
      && (forall k :: k in params ==> params[k] == Str(Strip(FieldAt(req, k).value.value)))
  {
    var dump := ModelDumpAsWritten(req);
    var params := MakeRequestParams(dump);
    assert "_limit" !in FilterNames && "_offset" !in FilterNames;
    forall k | k in params
      ensures params[k] == Str(Strip(FieldAt(req, k).value.value))
    {
      assert dump[k] == Str(FieldAt(req, k).value.value);
    }
  }

  /**
   * With the intended dump, the query carries the paging, and a filter exactly when
   * it was given a non-empty string, under its wire name and stripped.
   */
  lemma RequestParamsSpecIntended(req: FastighetsskattAvgiftRequest)
    ensures var params := MakeRequestParams(ModelDumpIntended(req));
      && params["_limit"] == Int(req.limit) && params["_offset"] == Int(req.offset)
      && (forall k :: k in params <==>
            k == "_limit" || k == "_offset" || (IsSetString(FieldAt(req, k)) && FieldAt(req, k).value.value != ""))
      && (forall k :: k in params && k in FilterNames ==> params[k] == Str(Strip(FieldAt(req, k).value.value)))
  {
    var dump := ModelDumpIntended(req);
    var params := MakeRequestParams(dump);
    assert "_limit" !in FilterNames && "_offset" !in FilterNames;
    forall k | k in params && k in FilterNames
      ensures params[k] == Str(Strip(FieldAt(req, k).value.value))
    {
      assert k in ModelDumpAsWritten(req);
      assert dump[k] == Str(FieldAt(req, k).value.value);
    }
  }

  /**
   * A request's grouping value travels as `grupperingsvärde`, never as
   * `grupperingsvarde`, in the dump as declared and in the intended one.
   */
  lemma GroupingValueAlias(req: FastighetsskattAvgiftRequest)
    ensures var params := MakeRequestParams(ModelDumpAsWritten(req));
      && "grupperingsvarde" !in params
      && ("grupperingsvärde" in params <==> IsSetString(req.grupperingsvarde) && req.grupperingsvarde.value.value != "")
    ensures var params := MakeRequestParams(ModelDumpIntended(req));
      && "grupperingsvarde" !in params
      && ("grupperingsvärde" in params <==> IsSetString(req.grupperingsvarde) && req.grupperingsvarde.value.value != "")
  {
    var dump := ModelDumpIntended(req);
    assert "grupperingsvarde" !in ModelDumpAsWritten(req) && "grupperingsvarde" !in dump by {
      assert "grupperingsvarde" !in FilterNames;
    }
    assert FieldAt(req, "grupperingsvärde") == req.grupperingsvarde;
  }

  /**
   * `search_fastighetsskatt_avgift`: all seven filters are passed by field name, so
   * the grouping value is lost, and the paging passed is ignored.  Nothing is
   * refused; the cleaned dump is sent and the validated reply returned.
   */
  function SearchFastighetsskattAvgift(
    uppdateringsdatum: Option<string>, gruppering: Option<string>, statistikterm: Option<string>,
    antal: Option<string>, belopp: Option<string>, grupperingsvarde: Option<string>,
    inkomstar: Option<string>, limit: int, offset: int, reply: Reply<RawPage<SkattAvgift>>)
    : (r: Call<Page<SkattAvgift>>)
    ensures r.Sent?
    ensures r.params == MakeRequestParams(ModelDumpAsWritten(FastighetsskattAvgiftRequest(
      SetTo(uppdateringsdatum), SetTo(gruppering), SetTo(statistikterm), SetTo(antal),
      SetTo(belopp), Unset, SetTo(inkomstar), 10, 0)))
    ensures r.outcome == ReadPage(reply)
  {
    var req := NewRequestAsWritten(SetTo(uppdateringsdatum), SetTo(gruppering), SetTo(statistikterm), SetTo(antal),
                                   SetTo(belopp), SetTo(grupperingsvarde), SetTo(inkomstar), limit, offset);
    Sent(MakeRequestParams(ModelDumpAsWritten(req)), ReadPage(reply))
  }

  /**
   * The search as intended: the grouping value is kept, paging out of bounds is
   * refused, and the limit and offset are sent.
   */
  function SearchFastighetsskattAvgiftIntended(
    uppdateringsdatum: Option<string>, gruppering: Option<string>, statistikterm: Option<string>,
    antal: Option<string>, belopp: Option<string>, grupperingsvarde: Option<string>,
    inkomstar: Option<string>, limit: int, offset: int, reply: Reply<RawPage<SkattAvgift>>)
    : (r: Call<Page<SkattAvgift>>)
    ensures r.Invalid? <==> !(1 <= limit <= MaxLimit && 0 <= offset <= MaxOffset)
    ensures r.Sent? ==> r.params == MakeRequestParams(ModelDumpIntended(FastighetsskattAvgiftRequest(
      SetTo(uppdateringsdatum), SetTo(gruppering), SetTo(statistikterm), SetTo(antal),
      SetTo(belopp), SetTo(grupperingsvarde), SetTo(inkomstar), limit, offset)))
    ensures r.Sent? ==> r.outcome == ReadPage(reply)
  {
    match NewRequestIntended(SetTo(uppdateringsdatum), SetTo(gruppering), SetTo(statistikterm), SetTo(antal),
                             SetTo(belopp), SetTo(grupperingsvarde), SetTo(inkomstar), limit, offset)
    case Err(_) => Invalid
    case Ok(req) => Sent(MakeRequestParams(ModelDumpIntended(req)), ReadPage(reply))
  }

  /** The request the search builds its query from, with the arguments as it passes them. */
  function SearchRequest(
    uppdateringsdatum: Option<string>, gruppering: Option<string>, statistikterm: Option<string>,
    antal: Option<string>, belopp: Option<string>, grupperingsvarde: Option<string>,
    inkomstar: Option<string>, limit: int, offset: int): (req: FastighetsskattAvgiftRequest)
    ensures forall k :: k in FilterNames ==> FieldAt(req, k).SetTo?
  {
    FastighetsskattAvgiftRequest(SetTo(uppdateringsdatum), SetTo(gruppering), SetTo(statistikterm),
      SetTo(antal), SetTo(belopp), SetTo(grupperingsvarde), SetTo(inkomstar), limit, offset)
  }

  /**
   * The search sends each of the six filters it keeps exactly when it is a non-empty
   * string, and never the grouping value under either name, nor any paging.
   */
  lemma SearchParams(
    uppdateringsdatum: Option<string>, gruppering: Option<string>, statistikterm: Option<string>,
    antal: Option<string>, belopp: Option<string>, grupperingsvarde: Option<string>,
    inkomstar: Option<string>, limit: int, offset: int, reply: Reply<RawPage<SkattAvgift>>)
    ensures var params := SearchFastighetsskattAvgift(uppdateringsdatum, gruppering, statistikterm, antal, belopp,
      grupperingsvarde, inkomstar, limit, offset, reply).params;
      var given := SearchRequest(uppdateringsdatum, gruppering, statistikterm, antal, belopp,
        grupperingsvarde, inkomstar, limit, offset);
      && params.Keys <= FilterNames
      && "grupperingsvärde" !in params && "_limit" !in params && "_offset" !in params
      && (forall k :: k != "grupperingsvärde" ==>
            (k in params <==> IsSetString(FieldAt(given, k)) && FieldAt(given, k).value.value != ""))
  {
    var req := NewRequestAsWritten(SetTo(uppdateringsdatum), SetTo(gruppering), SetTo(statistikterm),
      SetTo(antal), SetTo(belopp), SetTo(grupperingsvarde), SetTo(inkomstar), limit, offset);
    RequestParamsSpec(req);
    assert FieldAt(req, "grupperingsvärde") == Unset;
  }

  /** Each filter the search sends is the string it was given, stripped. */
  lemma SearchParamsStripped(
    uppdateringsdatum: Option<string>, gruppering: Option<string>, statistikterm: Option<string>,
    antal: Option<string>, belopp: Option<string>, grupperingsvarde: Option<string>,
    inkomstar: Option<string>, limit: int, offset: int, reply: Reply<RawPage<SkattAvgift>>)
    ensures var params := SearchFastighetsskattAvgift(uppdateringsdatum, gruppering, statistikterm, antal, belopp,
      grupperingsvarde, inkomstar, limit, offset, reply).params;
      var given := SearchRequest(uppdateringsdatum, gruppering, statistikterm, antal, belopp,
        grupperingsvarde, inkomstar, limit, offset);
      forall k :: k in params ==> IsSetString(FieldAt(given, k)) && params[k] == Str(Strip(FieldAt(given, k).value.value))
  {
    var req := NewRequestAsWritten(SetTo(uppdateringsdatum), SetTo(gruppering), SetTo(statistikterm),
      SetTo(antal), SetTo(belopp), SetTo(grupperingsvarde), SetTo(inkomstar), limit, offset);
    RequestParamsSpec(req);
  }

  /** As written, a grouping value given to the search is never sent. */
  lemma GroupingValueDroppedAsWritten(
    uppdateringsdatum: Option<string>, gruppering: Option<string>, statistikterm: Option<string>,
    antal: Option<string>, belopp: Option<string>, grupperingsvarde: Option<string>,
    inkomstar: Option<string>, limit: int, offset: int, reply: Reply<RawPage<SkattAvgift>>)
    ensures var params := SearchFastighetsskattAvgift(uppdateringsdatum, gruppering, statistikterm, antal, belopp,
      grupperingsvarde, inkomstar, limit, offset, reply).params;
      "grupperingsvärde" !in params && "grupperingsvarde" !in params
  {
    SearchParams(uppdateringsdatum, gruppering, statistikterm, antal, belopp, grupperingsvarde, inkomstar, limit, offset, reply);
  }

  /** As intended, a non-empty grouping value given to the search is sent, stripped, under its alias. */
  lemma GroupingValueSentIntended(
    uppdateringsdatum: Option<string>, gruppering: Option<string>, statistikterm: Option<string>,
    antal: Option<string>, belopp: Option<string>, grupperingsvarde: Option<string>,
    inkomstar: Option<string>, limit: int, offset: int, reply: Reply<RawPage<SkattAvgift>>)
    requires SearchFastighetsskattAvgiftIntended(uppdateringsdatum, gruppering, statistikterm, antal, belopp,
      grupperingsvarde, inkomstar, limit, offset, reply).Sent?
    ensures var params := SearchFastighetsskattAvgiftIntended(uppdateringsdatum, gruppering, statistikterm, antal,
      belopp, grupperingsvarde, inkomstar, limit, offset, reply).params;
      && "grupperingsvarde" !in params
      && ("grupperingsvärde" in params <==> grupperingsvarde.Some? && grupperingsvarde.value != "")
      && ("grupperingsvärde" in params ==> params["grupperingsvärde"] == Str(Strip(grupperingsvarde.value)))
  {
    var req := FastighetsskattAvgiftRequest(SetTo(uppdateringsdatum), SetTo(gruppering), SetTo(statistikterm),
      SetTo(antal), SetTo(belopp), SetTo(grupperingsvarde), SetTo(inkomstar), limit, offset);
    GroupingValueAlias(req);
    RequestParamsSpecIntended(req);
    assert FieldAt(req, "grupperingsvärde") == SetTo(grupperingsvarde);
  }

  /**
   * `list_fastighetsskatt_avgift`: no filter is given and the paging passed is
   * ignored, so nothing is refused and the query is empty.
   */
  function ListFastighetsskattAvgift(limit: int, offset: int, reply: Reply<RawPage<SkattAvgift>>)
    : (r: Call<Page<SkattAvgift>>)
    ensures r.Sent?
    ensures r.params == MakeRequestParams(ModelDumpAsWritten(
      FastighetsskattAvgiftRequest(Unset, Unset, Unset, Unset, Unset, Unset, Unset, 10, 0)))
    ensures r.outcome == ReadPage(reply)
  {
    var req := NewRequestAsWritten(Unset, Unset, Unset, Unset, Unset, Unset, Unset, limit, offset);
    Sent(MakeRequestParams(ModelDumpAsWritten(req)), ReadPage(reply))
  }

  /** The listing as intended: paging out of bounds is refused, and the paging is sent. */
  function ListFastighetsskattAvgiftIntended(limit: int, offset: int, reply: Reply<RawPage<SkattAvgift>>)
    : (r: Call<Page<SkattAvgift>>)
    ensures r.Invalid? <==> !(1 <= limit <= MaxLimit && 0 <= offset <= MaxOffset)
    ensures r.Sent? ==> r.params == MakeRequestParams(ModelDumpIntended(
      FastighetsskattAvgiftRequest(Unset, Unset, Unset, Unset, Unset, Unset, Unset, limit, offset)))
    ensures r.Sent? ==> r.outcome == ReadPage(reply)
  {
    match NewRequestIntended(Unset, Unset, Unset, Unset, Unset, Unset, Unset, limit, offset)
    case Err(_) => Invalid
    case Ok(req) => Sent(MakeRequestParams(ModelDumpIntended(req)), ReadPage(reply))
  }

  /** As the code declares the model, a listing sends no parameter at all, whatever paging it asks for. */
  lemma ListSendsNothingAsWritten(limit: int, offset: int, reply: Reply<RawPage<SkattAvgift>>)
    ensures ListFastighetsskattAvgift(limit, offset, reply).params == map[]
  {
    var req := FastighetsskattAvgiftRequest(Unset, Unset, Unset, Unset, Unset, Unset, Unset, 10, 0);
    assert forall k :: FieldAt(req, k) == Unset;
    assert ModelDumpAsWritten(req) == map[];
  }

  /** With the intended dump, a listing sends exactly its paging. */
  lemma ListSendsPaging(limit: int, offset: int, reply: Reply<RawPage<SkattAvgift>>)
    requires ListFastighetsskattAvgiftIntended(limit, offset, reply).Sent?
    ensures ListFastighetsskattAvgiftIntended(limit, offset, reply).params == map["_limit" := Int(limit), "_offset" := Int(offset)]
  {
    var req := FastighetsskattAvgiftRequest(Unset, Unset, Unset, Unset, Unset, Unset, Unset, limit, offset);
    assert forall k :: FieldAt(req, k) == Unset;
    RequestParamsSpecIntended(req);
    var params := MakeRequestParams(ModelDumpIntended(req));
    var m := map["_limit" := Int(limit), "_offset" := Int(offset)];
    assert params.Keys == m.Keys;
    forall k | k in m
      ensures params[k] == m[k]
    {
    }
  }

  /**
   * A request may ask for up to 500 rows, but the response model accepts a limit of
   * at most 100: with the intended search, a reply that echoes a larger limit is refused.
   */
  lemma LargeEchoedLimitRefused(
    uppdateringsdatum: Option<string>, gruppering: Option<string>, statistikterm: Option<string>,
    antal: Option<string>, belopp: Option<string>, grupperingsvarde: Option<string>,
    inkomstar: Option<string>, limit: int, offset: int, reply: Reply<RawPage<SkattAvgift>>)
    requires MaxPageLimit < limit <= MaxLimit && 0 <= offset <= MaxOffset
    requires IsSuccess(reply.status) && reply.json.limit == Present(limit)
    ensures SearchFastighetsskattAvgiftIntended(uppdateringsdatum, gruppering, statistikterm, antal, belopp,
      grupperingsvarde, inkomstar, limit, offset, reply).outcome == Raised(ValidationError)
  {
  }
}
