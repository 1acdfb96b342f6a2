/**
 * What the two Skatteverket tools share: the rowstore query parameters, the
 * three filters a query passes through before it is sent (drop `None`, drop
 * `""`, strip strings), and the paged response every rowstore dataset returns.
 */
module Rowstore {
  import opened Maybe
  import opened PyStr
  import opened Http

  /** A query parameter value before it is sent: `None`, a string or an integer. */
  datatype Val = Null | Str(s: string) | Int(n: int)

  /** `None` for an absent string, the string otherwise. */
  function OptStr(o: Option<string>): (v: Val)
    ensures v.Null? <==> o.None?
    ensures o.Some? ==> v == Str(o.value)
  {
    match o
    case None => Null
    case Some(s) => Str(s)
  }

  /** `{k: v for k, v in params.items() if v is not None}` */
  function DropNone(params: map<string, Val>): (r: map<string, Val>)
    ensures forall k :: k in r <==> k in params && !params[k].Null?
    ensures forall k :: k in r ==> r[k] == params[k]
  {
    map k | k in params && !params[k].Null? :: params[k]
  }

  /** `{k: v for k, v in params.items() if v != ""}` */
  function DropEmpty(params: map<string, Val>): (r: map<string, Val>)
    ensures forall k :: k in r <==> k in params && params[k] != Str("")
    ensures forall k :: k in r ==> r[k] == params[k]
  {
    map k | k in params && params[k] != Str("") :: params[k]
  }

  /** `v.strip() if isinstance(v, str) else v` */
  function StripVal(v: Val): (r: Val)
    ensures v.Str? <==> r.Str?
    ensures v.Str? ==> IsStripOf(v.s, r.s)
    ensures !v.Str? ==> r == v
  {
    match v
    case Str(s) => Str(Strip(s))
    case _ => v
  }

  /** `{k: strip(v) for k, v in params.items()}`: same keys, strings stripped, the rest unchanged. */
  function StripStrings(params: map<string, Val>): (r: map<string, Val>)
    ensures r.Keys == params.Keys
    ensures forall k :: k in r ==> r[k] == StripVal(params[k])
  {
    map k | k in params :: StripVal(params[k])
  }

  /** The three filters in the order the query builder applies them. */
  function Clean(params: map<string, Val>): (r: map<string, Val>)
    ensures forall k :: k in r <==> k in params && params[k] != Null && params[k] != Str("")
  {
    StripStrings(DropEmpty(DropNone(params)))
  }

  /**
   * A parameter is sent exactly when it is neither `None` nor `""`; an integer is
   * sent unchanged (zero included), and a string is sent stripped.
   */
  lemma CleanCharacterised(params: map<string, Val>)
    ensures forall k :: k in Clean(params) <==> k in params && params[k] != Null && params[k] != Str("")
    ensures forall k :: k in Clean(params) && params[k].Int? ==> Clean(params)[k] == params[k]
    ensures forall k :: k in Clean(params) && params[k].Str? ==> Clean(params)[k] == Str(Strip(params[k].s))
  {
  }

  /** No `None` is ever sent, nor is a key added; every string sent has no whitespace at either end. */
  lemma CleanSendsStripped(params: map<string, Val>)
    ensures Clean(params).Keys <= params.Keys
    ensures forall k :: k in Clean(params) ==> !Clean(params)[k].Null?
    ensures forall k :: k in Clean(params) && Clean(params)[k].Str? ==> Strip(Clean(params)[k].s) == Clean(params)[k].s
  {
    forall k | k in Clean(params) && Clean(params)[k].Str?
      ensures Strip(Clean(params)[k].s) == Clean(params)[k].s
    {
      StripIdempotent(params[k].s);
    }
  }

  /**
   * The empty-string test runs before stripping, so a value made only of whitespace
   * survives it and is sent as the empty string.
   */
  lemma WhitespaceOnlySentEmpty(params: map<string, Val>, k: string)
    requires k in params && params[k].Str? && params[k].s != "" && AllSpace(params[k].s)
    ensures k in Clean(params) && Clean(params)[k] == Str("")
  {
  }

  /**
   * Cleaning an already cleaned query changes nothing but drops the parameters
   * the first pass turned into `""`.
   */
  lemma CleanAgain(params: map<string, Val>)
    ensures Clean(Clean(params)) == DropEmpty(Clean(params))
  {
    var c := Clean(params);
    forall k | k in c && c[k] != Str("")
      ensures StripVal(c[k]) == c[k]
    {
      if c[k].Str? {
        StripIdempotent(params[k].s);
      }
    }
  }

  /** A field of a JSON object: missing, `null`, or a value. */
  datatype JsonField<T> = Absent | JsonNull | Present(value: T)

  /** A decoded rowstore reply, field by field, before validation. */
  datatype RawPage<R> = RawPage(
    next: JsonField<string>,
    resultCount: JsonField<int>,
    offset: JsonField<int>,
    limit: JsonField<int>,
    queryTime: JsonField<int>,
    results: JsonField<seq<R>>)

  /** A validated rowstore reply. */
  datatype Page<R> = Page(
    next: Option<string>,
    resultCount: Option<int>,
    offset: int,
    limit: int,
    queryTime: Option<int>,
    results: seq<R>)

  /** The largest page a reply may declare. */
  const MaxPageLimit := 100

  /**
   * A field with a default: missing takes the default, `null` gives `None`, which
   * an optional field keeps and a required-typed field refuses.
   */
  function WithDefault<T>(f: JsonField<T>, default: T): (r: Option<T>)
    ensures f.Absent? ==> r == Some(default)
    ensures f.JsonNull? <==> r.None?
    ensures f.Present? ==> r == Some(f.value)
  {
    match f
    case Absent => Some(default)
    case JsonNull => None
    case Present(v) => Some(v)
  }

  /** The reply's bounds: a non-negative offset, and a limit from 1 to 100. */
  predicate PageBounds(offset: int, limit: int) {
    0 <= offset && 1 <= limit <= MaxPageLimit
  }

  /**
   * Validating a reply into the response model: defaults `next=""`, `resultCount=0`,
   * `offset=0`, `limit=10`, `queryTime=0`, `results=[]`; `null` is accepted for
   * the optional fields only; the offset and limit must lie in their bounds.
   */
  function DecodePage<R>(raw: RawPage<R>): (r: Result<Page<R>, Failure>)
    ensures r.Ok? <==>
      && WithDefault(raw.offset, 0).Some? && WithDefault(raw.limit, 10).Some? && WithDefault(raw.results, []).Some?
      && PageBounds(WithDefault(raw.offset, 0).value, WithDefault(raw.limit, 10).value)
    ensures r.Err? ==> r.error == ValidationError
    ensures r.Ok? ==> PageBounds(r.value.offset, r.value.limit)
    ensures r.Ok? ==> r.value.results == (if raw.results.Present? then raw.results.value else [])
    ensures r.Ok? ==> r.value.next == WithDefault(raw.next, "")
    ensures r.Ok? ==> r.value.resultCount == WithDefault(raw.resultCount, 0)
    ensures r.Ok? ==> r.value.queryTime == WithDefault(raw.queryTime, 0)
    ensures r.Ok? ==> r.value.offset == (if raw.offset.Present? then raw.offset.value else 0)
    ensures r.Ok? ==> r.value.limit == (if raw.limit.Present? then raw.limit.value else 10)
  {
    match (WithDefault(raw.offset, 0), WithDefault(raw.limit, 10), WithDefault(raw.results, []))
    case (Some(offset), Some(limit), Some(results)) =>
      if PageBounds(offset, limit) then
        Ok(Page(WithDefault(raw.next, ""), WithDefault(raw.resultCount, 0), offset, limit, WithDefault(raw.queryTime, 0), results))
      else Err(ValidationError)
    case _ => Err(ValidationError)
  }

  /** An empty JSON object is a valid reply: the first ten of no results. */
  lemma EmptyReplyDefaults<R>()
    ensures DecodePage<R>(RawPage(Absent, Absent, Absent, Absent, Absent, Absent))
         == Ok(Page(Some(""), Some(0), 0, 10, Some(0), []))
  {
  }

  /** The tail of every rowstore request: `raise_for_status()`, then validation of the reply. */
  function ReadPage<R>(reply: Reply<RawPage<R>>): (r: Outcome<Page<R>>)
    ensures r.Raised? && r.failure.StatusError? <==> !IsSuccess(reply.status)
    ensures r.Raised? && r.failure.StatusError? ==> r.failure == StatusError(reply.status)
    ensures r.Raised? && r.failure == ValidationError <==> IsSuccess(reply.status) && DecodePage(reply.json).Err?
    ensures r.Returned? ==> IsSuccess(reply.status) && DecodePage(reply.json) == Ok(r.value)
  {
    if !IsSuccess(reply.status) then Raised(StatusError(reply.status))
    else match DecodePage(reply.json)
      case Ok(page) => Returned(page)
      case Err(e) => Raised(e)
  }

  /**
   * A tool call against a rowstore dataset: refused by request validation before
   * anything is sent, or sent with these query parameters and with this outcome.
   */
  datatype Call<T> = Invalid | Sent(params: map<string, Val>, outcome: Outcome<T>)
}
