# mcp-dataportal request shaping, in Dafny

This project models how the MCP tools of mcp-dataportal turn a tool call into an
HTTP request, and how they turn the reply into a tool result. It covers two
public-data sources.

- **Riksdagen.** These are the tools for documents, calendar events and members.
  - They build the query of the `dokumentlista` endpoint from optional filters.
  - They canonicalise a document reference (a `dok_id`, or an absolute, protocol-relative or root-relative URL) into one document URL for the requested format (`text`, `html` or `json`).
  - They return the `dokumentlista` object, or the empty-string sentinel `""` when there is none.
- **Skatteverket rowstore.** These are the tools for taxeringsenhet type codes and for property-tax statistics.
  - They build a query from a request model, then drop `None`s, drop `""`s and strip strings.
  - They validate the paged reply: a non-negative offset, a limit from 1 to 100, and defaults for missing fields.

Modules:

- `Maybe`: Option and Result.
- `PyStr`: the Python string operations the code uses.
  - `startswith`, `endswith` and the substring `in` test
  - `rsplit(".", 1)[0]` and `strip()`
  - `str(int)`
- `Http`: a reply, and `raise_for_status` as a failure for every status outside 200–299.
- `Riksdagen`: the vocabulary the three Riksdagen tools share.
- `Dokument`, `Kalender` and `Ledamot`: one module per Riksdagen tool file.
- `Rowstore`: the shared filters and the reply validation.
- `Typkoder` and `Fastighetsskatt`: one module per Skatteverket tool file.

How the source's form is kept:

- The query builders that insert into a dict step by step are methods that update a local map. Each is proved to produce exactly the query that a specification predicate describes (`IsListParams`, `IsMemberParams`).
- The dict comprehensions and the result choices are pure functions.

Where the code and its documentation disagree, the model follows the code. The document canonicaliser rewrites `.txt` to `.text` *after* it has put the requested extension in place. So:

- a reference that resolves to a `/dokument/` URL ending in `.txt` ends in `.text`, whatever format was requested;
- canonicalising is idempotent except in that case under a format other than `text`.

`Dokument.NormalizeIdempotent` and `Dokument.NormalizeNotIdempotentForTxt` prove both halves.

## Model

| member | source | states |
|---|---|---|
| PyStr.RSplitHead | tools/riksdagen/dokument.py:179 | `rsplit(".", 1)[0]`: everything before the last separator, or the whole string when there is none (used through `RSplitHeadBeforeTail`) |
| PyStr.RSplitHeadBeforeTail | tools/riksdagen/dokument.py:179 | when the string ends in the separator followed by a tail without it, the head is everything before that separator |
| PyStr.TrimStart | tools/skatteverket/typkoder_taxeringsenheter.py:81 | the result is a suffix of the input; what was cut is all whitespace; the result does not start with whitespace |
| PyStr.TrimEnd | tools/skatteverket/typkoder_taxeringsenheter.py:81 | the mirror image of `TrimStart` at the end of the string |
| PyStr.TrimsAreStrip | tools/skatteverket/typkoder_taxeringsenheter.py:81 | trimming the start and then the end cuts a whitespace run from each end, and leaves nothing exactly when the input is all whitespace |
| PyStr.Strip | tools/skatteverket/typkoder_taxeringsenheter.py:81 | `strip()` cuts a whitespace run from each end and leaves no whitespace at either end; the result is empty exactly when the input is all whitespace |
| PyStr.StripKeepsTrimmed | tools/skatteverket/fastighetsskatt_avgifter.py:159 | a string with no whitespace at either end is kept whole |
| PyStr.StripIdempotent | tools/skatteverket/fastighetsskatt_avgifter.py:159 | stripping twice is stripping once |
| PyStr.NatToDecimal | tools/riksdagen/ledamot.py:224 | `str(n)` of a natural number is a non-empty digit string with no leading zero |
| PyStr.NatToDecimalRoundTrip | tools/riksdagen/ledamot.py:224 | reading the decimal string back gives the number |
| PyStr.IntToDecimal | tools/riksdagen/ledamot.py:224-227 | `str(n)` is non-empty, starts with `-` exactly for a negative number, and is all digits otherwise |
| PyStr.IntToDecimalRoundTrip | tools/riksdagen/ledamot.py:224-227 | `str(n)` starts with `-` exactly for a negative number; its digits read back as the absolute value |
| Riksdagen.Ext | tools/riksdagen/dokument.py:174 | the format token is a four-character extension with no `.` or `/`; it is `text` only for `Text` and `json` only for `Json` |
| Riksdagen.ListParamsKeys | tools/riksdagen/dokument.py:200-217 | a list query carries the four fixed keys and no key outside the ten known ones; it never has an `organ` key; an `organ` or `doktyp` given as `""` is not sent |
| Riksdagen.SelectListing | tools/riksdagen/dokument.py:228-280 | a non-2xx status raises; otherwise the result is the `dokumentlista` when there is one, and `""` exactly when there is none |
| Riksdagen.AcceptHeader | tools/riksdagen/dokument.py:310-314 | the `Accept` header is `application/json` exactly for the `json` format |
| Riksdagen.Download | tools/riksdagen/dokument.py:310-329 | one request to the given URL; a non-2xx status raises a status error carrying that status; `json` yields the parsed body and the other formats the text |
| Dokument.NormalizeDocumentUrl | tools/riksdagen/dokument.py:154-184 | the canonicaliser fails exactly on the empty reference |
| Dokument.ResolvePrefix | tools/riksdagen/dokument.py:163-174 | the first step always yields an `http://` or `https://` URL, and keeps an absolute reference as it is |
| Dokument.CoerceFormat | tools/riksdagen/dokument.py:177-182 | the format step changes only a URL that contains `/dokument/` and ends in `.text`, `.html`, `.json` or `.txt`; every other URL is left alone |
| Dokument.ResolvePrefixCases | tools/riksdagen/dokument.py:163-172 | `http(s)://` is kept as it is (no upgrade), `//x` becomes `https://x`, `/x` is joined to `https://data.riksdagen.se` |
| Dokument.BareIdUrl | tools/riksdagen/dokument.py:172-179 | a non-empty bare id becomes exactly `https://data.riksdagen.se/dokument/<id>.<fmt>` |
| Dokument.ProtocolRelativeUrl | tools/riksdagen/dokument.py:165-179 | `//host/dokument/<id>.html` becomes `https://host/dokument/<id>.<fmt>` |
| Dokument.RootRelativeTxt | tools/riksdagen/dokument.py:167-182 | `/dokument/<id>.txt` becomes `https://data.riksdagen.se/dokument/<id>.text` for every format |
| Dokument.CoerceWithoutSegment | tools/riksdagen/dokument.py:177 | a URL without `/dokument/` is not touched by the format step |
| Dokument.CoerceFormatExt | tools/riksdagen/dokument.py:177-179 | a `.text`, `.html` or `.json` ending is replaced by the requested extension |
| Dokument.CoerceTxt | tools/riksdagen/dokument.py:177-182 | a `.txt` ending becomes `.text`, whatever format was requested |
| Dokument.CoerceOtherEnding | tools/riksdagen/dokument.py:177-182 | any other ending is left alone |
| Dokument.CoerceFormatKeepsStart | tools/riksdagen/dokument.py:177-182 | the format step never changes the first ten characters, so it keeps the scheme |
| Dokument.NormalizedIsAbsolute | tools/riksdagen/dokument.py:154-184 | every canonical URL is `http://` or `https://`; an `http://` reference stays `http://` |
| Dokument.TxtBecomesText | tools/riksdagen/dokument.py:177-182 | a reference that resolves to a `/dokument/` URL ending in `.txt` canonicalises to that URL ending in `.text` |
| Dokument.CoerceHeadExt | tools/riksdagen/dokument.py:177-182 | on a `/dokument/` URL ending in any format extension, the format step keeps everything before the last `.` and puts the requested extension after it; so a URL already in the requested format is left alone |
| Dokument.CoerceIdempotentOnExt | tools/riksdagen/dokument.py:177-182 | after a format extension has been swapped, a second format step changes nothing |
| Dokument.CoerceIdempotentOnTxt | tools/riksdagen/dokument.py:177-182 | under `text`, after `.txt` has become `.text`, a second format step changes nothing |
| Dokument.CoerceFormatIdempotent | tools/riksdagen/dokument.py:177-182 | the format step is idempotent, except on a `.txt` ending under a format other than `text` |
| Dokument.NormalizeIdempotent | tools/riksdagen/dokument.py:154-184 | canonicalising a canonical URL again changes nothing, except after a `.txt` rewrite under another format |
| Dokument.NormalizeNotIdempotentForTxt | tools/riksdagen/dokument.py:177-182 | in that excepted case, the second pass does change the URL |
| Dokument.TextSwappedAgain | tools/riksdagen/dokument.py:177-179 | under a format other than `text`, a `/dokument/` URL ending in `.text` is changed by the format step |
| Dokument.MakeRequestParams | tools/riksdagen/dokument.py:200-217 | the query is exactly `avd=dokument`, `sort`, `sortorder` and `utformat`, plus each truthy filter (`organ` as `org`) |
| Dokument.ListDocuments | tools/riksdagen/dokument.py:266-280 | it sends JSON output with the caller's sort; a non-2xx status raises; the result is the list, or `""` exactly when there is none |
| Dokument.FetchDocument | tools/riksdagen/dokument.py:302-329 | an empty reference gives `""` and no request; otherwise it downloads the canonical URL with the format's `Accept` header |
| Kalender.NormalizeDocumentUrl | tools/riksdagen/kalender.py:42-79 | the calendar copy of the canonicaliser fails exactly on the empty reference |
| Kalender.ResolvePrefix | tools/riksdagen/kalender.py:58-69 | the calendar copy of the first step computes the same URL as the document copy |
| Kalender.CoerceFormat | tools/riksdagen/kalender.py:72-77 | the calendar copy of the format step computes the same URL as the document copy |
| Kalender.SameAsDokument | tools/riksdagen/kalender.py:54-79 | the calendar copy computes the same function as the document copy |
| Kalender.DocExampleDokId | tools/riksdagen/kalender.py:50 | `HD096` with `text` gives `https://data.riksdagen.se/dokument/HD096.text` |
| Kalender.DocExampleProtocolRelative | tools/riksdagen/kalender.py:51 | `//data.riksdagen.se/dokument/HD096.html` with `json` gives `https://data.riksdagen.se/dokument/HD096.json` |
| Kalender.RootRelativeTxt | tools/riksdagen/kalender.py:52-77 | `/dokument/<id>.txt` gives `https://data.riksdagen.se/dokument/<id>.text` for every format, so it ends in the requested format only for `text` |
| Kalender.MakeRequestParams | tools/riksdagen/kalender.py:100-117 | the query is exactly `avd=kalender` and the fixed keys, plus each truthy filter (`organ` as `org`) |
| Kalender.ListKalenderHandelser | tools/riksdagen/kalender.py:178-192 | it sends the calendar query; a non-2xx status raises; the result is the list, or `""` exactly when there is none |
| Kalender.FetchKalenderHandelse | tools/riksdagen/kalender.py:218-245 | an empty reference gives `""` and no request; otherwise it downloads the canonical URL |
| Ledamot.MakeRequestParams | tools/riksdagen/ledamot.py:211-227 | the query is exactly `avd=ledamot`, `sort`, `sortorder` and `utformat=json`; `sok`, `datum` and `tom` are added when truthy; `p` and `pagesize` are added as decimal strings whenever they are not `None` |
| Ledamot.MemberParamsKeys | tools/riksdagen/ledamot.py:211-227 | the four fixed keys are always sent; `doktyp`, `rm`, `org` and `organ` never are; an empty `sok` is dropped; page 0 is sent as `"0"`, not dropped |
| Ledamot.PageParamsDecimal | tools/riksdagen/ledamot.py:223-227 | a non-negative `p` or `pagesize` is sent as a digit string that reads back as that number |
| Ledamot.DefaultParams | tools/riksdagen/ledamot.py:201-202 | without a sort, the query sorts by `rel`, `desc` |
| Ledamot.ListMembersLedamot | tools/riksdagen/ledamot.py:286-301 | it sends the member query; a non-2xx status raises; the result is the list, or `""` exactly when there is none |
| Rowstore.OptStr | tools/skatteverket/typkoder_taxeringsenheter.py:67-71 | a missing string parameter is `None`, a given one is its string |
| Rowstore.DropNone | tools/skatteverket/typkoder_taxeringsenheter.py:75 | it keeps exactly the keys whose value is not `None`, with their values |
| Rowstore.DropEmpty | tools/skatteverket/typkoder_taxeringsenheter.py:78 | it keeps exactly the keys whose value is not `""`, with their values |
| Rowstore.StripVal | tools/skatteverket/typkoder_taxeringsenheter.py:81 | a string is stripped; a non-string value is unchanged |
| Rowstore.StripStrings | tools/skatteverket/typkoder_taxeringsenheter.py:81 | the same keys, with string values stripped and the others unchanged |
| Rowstore.Clean | tools/skatteverket/typkoder_taxeringsenheter.py:74-81 | a parameter survives the three filters exactly when it is neither `None` nor `""` |
| Rowstore.CleanCharacterised | tools/skatteverket/typkoder_taxeringsenheter.py:74-81 | a parameter is sent exactly when it is neither `None` nor `""`; integers (0 included) go unchanged, strings go stripped |
| Rowstore.CleanSendsStripped | tools/skatteverket/typkoder_taxeringsenheter.py:74-81 | no key is added, no `None` is sent, and every string sent has no whitespace at either end |
| Rowstore.WhitespaceOnlySentEmpty | tools/skatteverket/typkoder_taxeringsenheter.py:77-81 | a whitespace-only value passes the `""` test and is sent as `""` |
| Rowstore.CleanAgain | tools/skatteverket/typkoder_taxeringsenheter.py:74-81 | cleaning a cleaned query again only drops the values that became `""` |
| Rowstore.WithDefault | tools/skatteverket/typkoder_taxeringsenheter.py:46-51 | a missing field takes its default; `null` gives `None`; a present value is kept |
| Rowstore.DecodePage | tools/skatteverket/typkoder_taxeringsenheter.py:45-51 | a reply is accepted exactly when `offset`, `limit` and `results` are not `null`, the offset is at least 0 and the limit is 1–100; every field of the page is the reply's value when present and its default (`next=""`, `resultCount=0`, `offset=0`, `limit=10`, `queryTime=0`, `results=[]`) when missing, and `null` gives `None` for the optional fields |
| Rowstore.EmptyReplyDefaults | tools/skatteverket/fastighetsskatt_avgifter.py:61-67 | `{}` is accepted as offset 0, limit 10, no results, `next=""` |
| Rowstore.ReadPage | tools/skatteverket/typkoder_taxeringsenheter.py:90-94 | a non-2xx status raises a status error carrying that status; an invalid reply raises a validation error; otherwise the result is the validated page |
| Typkoder.NewRequestAsWritten | tools/skatteverket/typkoder_taxeringsenheter.py:54-59 | as declared: only the string lengths are validated, and the underscore attributes keep 10, 0 and `None` whatever is passed |
| Typkoder.NewRequestIntended | tools/skatteverket/typkoder_taxeringsenheter.py:54-59 | as intended: `typkod` at most 5 and `beskrivning` at most 100 characters, limit 1–100, offset at least 0; the values are kept as given |
| Typkoder.RawParams | tools/skatteverket/typkoder_taxeringsenheter.py:66-72 | the raw query has exactly the keys `typkod`, `beskrivning`, `_limit`, `_offset` and `_callback` |
| Typkoder.MakeRequestParams | tools/skatteverket/typkoder_taxeringsenheter.py:66-81 | the query has no key outside those five, and always has `_limit` and `_offset` |
| Typkoder.RequestParamsSpec | tools/skatteverket/typkoder_taxeringsenheter.py:66-81 | the limit and offset are always sent; a string filter is sent, stripped, exactly when it is given and non-empty; there is no `_callback` without a callback |
| Typkoder.PagingIgnoredAsWritten | tools/skatteverket/typkoder_taxeringsenheter.py:57-70 | as declared, every request sends `_limit=10` and `_offset=0` |
| Typkoder.PagingSent | tools/skatteverket/typkoder_taxeringsenheter.py:57-70 | with the intended constructor, a valid request sends the limit and offset it was given |
| Typkoder.FirstRow | tools/skatteverket/typkoder_taxeringsenheter.py:115-119 | a failed reply raises; otherwise the result is the first row, or `""` exactly when there are no rows |
| Typkoder.AllRows | tools/skatteverket/typkoder_taxeringsenheter.py:140-146 | a failed reply raises; otherwise the result is the reply's rows (the `[]` fallback is the empty list itself) |
| Typkoder.GetTaxeringsenhetTypkod | tools/skatteverket/typkoder_taxeringsenheter.py:112-119 | a code over 5 characters is refused before any request; otherwise the query is the code with the default page of 10 rows (the `_limit=1` passed is ignored), and the answer is the first row or `""` |
| Typkoder.GetTaxeringsenhetTypkodIntended | tools/skatteverket/typkoder_taxeringsenheter.py:112-119 | as intended: the same, asking for one row |
| Typkoder.LookupParams | tools/skatteverket/typkoder_taxeringsenheter.py:112 | the lookup sends the stripped code (none for `""`), `_limit=10` and `_offset=0`, and never `beskrivning` or `_callback` |
| Typkoder.LookupParamsIntended | tools/skatteverket/typkoder_taxeringsenheter.py:112 | as intended: the same with `_limit=1` |
| Typkoder.GetTaxeringsenhetTypkodDescription | tools/skatteverket/typkoder_taxeringsenheter.py:137-146 | a description over 100 characters is refused; otherwise the query is the description with the default page of 10 rows (the `_limit=100` passed is ignored), and the answer is the reply's rows |
| Typkoder.GetTaxeringsenhetTypkodDescriptionIntended | tools/skatteverket/typkoder_taxeringsenheter.py:137-146 | as intended: the same, asking for 100 rows |
| Typkoder.ListTaxeringsenhetTypkoder | tools/skatteverket/typkoder_taxeringsenheter.py:169-171 | never refused, whatever paging is passed; it sends the unfiltered default request and returns the validated reply |
| Typkoder.ListTaxeringsenhetTypkoderIntended | tools/skatteverket/typkoder_taxeringsenheter.py:169-171 | as intended: a limit outside 1–100 or a negative offset is refused; otherwise the page asked for is requested |
| Typkoder.PagingOnlyParams | tools/skatteverket/typkoder_taxeringsenheter.py:66-81 | with no filters and no callback, the query is exactly `_limit` and `_offset` |
| Typkoder.ListParams | tools/skatteverket/typkoder_taxeringsenheter.py:169 | whatever paging it is given, the listing sends exactly `_limit=10` and `_offset=0` |
| Typkoder.ListParamsIntended | tools/skatteverket/typkoder_taxeringsenheter.py:169 | as intended: the listing sends exactly the paging it was given |
| Fastighetsskatt.FieldAt | tools/skatteverket/fastighetsskatt_avgifter.py:70-120 | a name that is not one of the seven filters' wire names has no value |
| Fastighetsskatt.NewRequestAsWritten | tools/skatteverket/fastighetsskatt_avgifter.py:70-143 | as declared, with arguments passed by field name: the underscore attributes stay 10 and 0 whatever is passed, the grouping value stays unset, and the other six filters are kept |
| Fastighetsskatt.NewRequestIntended | tools/skatteverket/fastighetsskatt_avgifter.py:70-143 | as intended: every filter kept, limit 1–500 and offset 0–50 kept as given; anything else is refused |
| Fastighetsskatt.ModelDumpAsWritten | tools/skatteverket/fastighetsskatt_avgifter.py:150 | as declared: exactly the filters given a string, under their wire names; the paging is not part of the dump |
| Fastighetsskatt.ModelDumpIntended | tools/skatteverket/fastighetsskatt_avgifter.py:150 | as intended: those filters plus `_limit` and `_offset` |
| Fastighetsskatt.MakeRequestParams | tools/skatteverket/fastighetsskatt_avgifter.py:150-159 | a dumped value is sent exactly when it is not `""`; strings go stripped, anything else unchanged |
| Fastighetsskatt.SameAsClean | tools/skatteverket/fastighetsskatt_avgifter.py:150-159 | skipping the `None` filter changes nothing, because the dump already excludes `None` |
| Fastighetsskatt.RequestParamsSpec | tools/skatteverket/fastighetsskatt_avgifter.py:150-159 | as declared: a filter is sent, stripped, exactly when it was given a non-empty string; no paging is ever sent |
| Fastighetsskatt.RequestParamsSpecIntended | tools/skatteverket/fastighetsskatt_avgifter.py:150-159 | as intended: the paging is always sent, and the filters as above |
| Fastighetsskatt.GroupingValueAlias | tools/skatteverket/fastighetsskatt_avgifter.py:106-113 | in the dump as declared and in the intended one, a request's grouping value is sent as `grupperingsvärde` exactly when it is a non-empty string, and never as `grupperingsvarde` |
| Fastighetsskatt.SearchFastighetsskattAvgift | tools/skatteverket/fastighetsskatt_avgifter.py:207-219 | never refused; it sends the cleaned dump of the six filters other than the grouping value, with no paging, and returns the validated reply |
| Fastighetsskatt.SearchRequest | tools/skatteverket/fastighetsskatt_avgifter.py:207-217 | the search gives every one of the seven filters a value, `None` included |
| Fastighetsskatt.SearchParams | tools/skatteverket/fastighetsskatt_avgifter.py:207-219 | the search sends each filter other than the grouping value exactly when it is a non-empty string, and never the grouping value, `_limit` or `_offset` |
| Fastighetsskatt.SearchParamsStripped | tools/skatteverket/fastighetsskatt_avgifter.py:207-219 | each filter the search sends is the string it was given, stripped |
| Fastighetsskatt.GroupingValueDroppedAsWritten | tools/skatteverket/fastighetsskatt_avgifter.py:207-219 | as written, a grouping value given to the search is never sent, under either name |
| Fastighetsskatt.SearchFastighetsskattAvgiftIntended | tools/skatteverket/fastighetsskatt_avgifter.py:207-219 | as intended: paging out of bounds is refused; otherwise it sends the cleaned dump of all seven filters and the paging |
| Fastighetsskatt.GroupingValueSentIntended | tools/skatteverket/fastighetsskatt_avgifter.py:207-219 | as intended, a non-empty grouping value given to the search is sent, stripped, as `grupperingsvärde` |
| Fastighetsskatt.ListFastighetsskattAvgift | tools/skatteverket/fastighetsskatt_avgifter.py:241-243 | never refused, whatever paging is passed; it sends the cleaned dump of an unfiltered request and returns the validated reply |
| Fastighetsskatt.ListFastighetsskattAvgiftIntended | tools/skatteverket/fastighetsskatt_avgifter.py:241-243 | as intended: paging out of bounds is refused; otherwise the paging is sent |
| Fastighetsskatt.ListSendsNothingAsWritten | tools/skatteverket/fastighetsskatt_avgifter.py:241-243 | as written, a listing sends no parameter at all |
| Fastighetsskatt.ListSendsPaging | tools/skatteverket/fastighetsskatt_avgifter.py:241 | as intended, a listing sends exactly `_limit` and `_offset` |
| Fastighetsskatt.LargeEchoedLimitRefused | tools/skatteverket/fastighetsskatt_avgifter.py:60-66 | as intended, a request may ask for up to 500 rows, but a reply that echoes a limit over 100 is refused |

## Findings

| source | as written | input that shows it | evidently intended | confidence | as-written member | corrected member |
|---|---|---|---|---|---|---|
| tools/skatteverket/typkoder_taxeringsenheter.py:57-59 | `_limit`, `_offset` and `_callback` start with an underscore, so the request model treats them as private attributes. The constructor ignores the values passed for them. | `list_taxeringsenhet_typkoder(limit=50, offset=100)` sends `_limit=10`, `_offset=0`; `get_taxeringsenhet_typkod` sends `_limit=10`, not 1 | the tools send the paging they pass, validated against its bounds | not executed; rests on the private-attribute rule of the pydantic 2 request model | Typkoder.PagingIgnoredAsWritten | Typkoder.PagingSent |
| tools/skatteverket/fastighetsskatt_avgifter.py:121-139 | `_limit` and `_offset` are private attributes. They are not set by the constructor and not included in `model_dump`. | `list_fastighetsskatt_avgift(limit=50, offset=10)` sends no parameter at all | the search and list tools send `_limit` and `_offset` | not executed; rests on the private-attribute rule of the pydantic 2 request model | Fastighetsskatt.ListSendsNothingAsWritten | Fastighetsskatt.ListSendsPaging |
| tools/skatteverket/fastighetsskatt_avgifter.py:141-143 | The configuration uses the pydantic 1 key `allow_population_by_field_name`. Pydantic 2 does not honour it; it only warns that the key is now `populate_by_name`. The search passes `grupperingsvarde=` by field name, but the field's alias is `grupperingsvärde`, so the argument is an ignored extra. | `search_fastighetsskatt_avgift(..., grupperingsvarde="X", ...)` sends no `grupperingsvärde` | the grouping value is sent under its alias | not executed; rests on how pydantic 2 treats a pydantic 1 configuration key | Fastighetsskatt.GroupingValueDroppedAsWritten | Fastighetsskatt.GroupingValueSentIntended |

The tools in `Typkoder` and `Fastighetsskatt` are modelled as written, from `NewRequestAsWritten` and `ModelDumpAsWritten`. Each has an `…Intended` counterpart built from the corrected `NewRequestIntended` and `ModelDumpIntended`, and the intended properties are proved about those counterparts.

## Left out

- The endpoint URLs of the list and rowstore APIs are not modelled: a request is its query parameters.
- HTTP transport, `async`, timeouts, the log messages sent to the MCP context, FastMCP registration and resources, and JSON parsing are not modelled. A reply is a status, a body text and an already-decoded JSON value.
- `raise_for_status` is modelled as an error for every status outside 200–299. Redirect handling inside the HTTP client is not part of this model.
- Pydantic validation of the Riksdagen list and detail models (`DokumentLista`, `LedamotLista`, `DokumentDetaljResponse`) is not modelled. They are type parameters, and any decoded list object counts as present, which matches the truthiness of a model instance.
- Pydantic validation of the rowstore rows (`TypKod`, `SkattAvgift`) is not modelled either. A reply field is missing, `null` or a value of the right type. Lax conversions (a float or a numeric string for an integer) are not modelled.
- The references passed to the fetch tools are strings, as the tools declare them. A `None` reference is not modelled; it would also be turned into `""`.
- `PyStr.IsSpace` uses Python's `str.isspace` table for the characters `strip()` removes. Unicode data beyond that table, and any normalisation, are not modelled.
- The `_offset` bound `le=50` of the property-tax request is kept as declared, even though its description gives an example with `_offset=100`.
- The resource endpoints, the server wiring and `main.py` are not part of this model.
