/**
 * src/pages/Reports.jsx: the custom report filters. The query string keeps only the filters that
 * are filled in, in a fixed order; the export adds the format last and is fetched with the bearer
 * token and the tenant headers but no JSON content type.
 */
module Reports {
  import opened Wrappers
  import opened Api

  datatype Filters = Filters(from: string, to: string, counselorId: string, stageId: string)

  /** A URLSearchParams object: the name/value pairs in the order they were appended. */
  class SearchParams {
    var pairs: seq<(string, string)>

    constructor ()
      ensures pairs == []
    {
      pairs := [];
    }

    method Append(name: string, value: string)
      modifies this
      ensures pairs == old(pairs) + [(name, value)]
    {
      pairs := pairs + [(name, value)];
    }
  }

  /** Every filter with its parameter name, in the order the page appends them. */
  function Candidates(f: Filters): seq<(string, string)>
  {
    [("from", f.from), ("to", f.to), ("counselorId", f.counselorId), ("stageId", f.stageId)]
  }

  /** One conditional append: the pair when the value is filled in, else nothing. */
  function Piece(name: string, value: string): seq<(string, string)>
  {
    if value != "" then [(name, value)] else []
  }

  /** The filters that are filled in, in the page's order. */
  function FilledIn(f: Filters): seq<(string, string)>
  {
    Piece("from", f.from) + Piece("to", f.to) + Piece("counselorId", f.counselorId) + Piece("stageId", f.stageId)
  }

  /** Each filter is sent exactly when it is filled in, with its value as typed, and nothing else is sent. */
  lemma FilledInExactly(f: Filters)
    ensures forall i :: 0 <= i < |FilledIn(f)| ==> FilledIn(f)[i] in Candidates(f) && FilledIn(f)[i].1 != ""
    ensures ("from", f.from) in FilledIn(f) <==> f.from != ""
    ensures ("to", f.to) in FilledIn(f) <==> f.to != ""
    ensures ("counselorId", f.counselorId) in FilledIn(f) <==> f.counselorId != ""
    ensures ("stageId", f.stageId) in FilledIn(f) <==> f.stageId != ""
  {
  }

  /** The four conditional appends of runReport and downloadReport. */
  method AppendFilters(params: SearchParams, f: Filters)
    modifies params
    ensures params.pairs == old(params.pairs) + FilledIn(f)
  {
    if f.from != "" { params.Append("from", f.from); }
    assert params.pairs == old(params.pairs) + Piece("from", f.from);
    if f.to != "" { params.Append("to", f.to); }
    assert params.pairs == old(params.pairs) + Piece("from", f.from) + Piece("to", f.to);
    if f.counselorId != "" { params.Append("counselorId", f.counselorId); }
    ghost var p3 := Piece("from", f.from) + Piece("to", f.to) + Piece("counselorId", f.counselorId);
    assert params.pairs == old(params.pairs) + p3;
    if f.stageId != "" { params.Append("stageId", f.stageId); }
    assert params.pairs == old(params.pairs) + (p3 + Piece("stageId", f.stageId));
  }

  /** runReport's query. */
  method ReportQuery(f: Filters) returns (query: seq<(string, string)>)
    ensures query == FilledIn(f)
  {
    var params := new SearchParams();
    AppendFilters(params, f);
    query := params.pairs;
  }

  /** downloadReport's query: the same filters, then the format. */
  method ExportQuery(f: Filters, format: string) returns (query: seq<(string, string)>)
    ensures query == FilledIn(f) + [("format", format)]
    ensures query[|query| - 1] == ("format", format) && query[..|query| - 1] == FilledIn(f)
  {
    var params := new SearchParams();
    AppendFilters(params, f);
    params.Append("format", format);
    query := params.pairs;
  }

  /** The extension of the downloaded file. */
  function Extension(format: string): (ext: string)
    ensures ext == "pdf" <==> format == "pdf"
    ensures ext != "pdf" ==> ext == "csv"
  {
    if format == "pdf" then "pdf" else "csv"
  }

  /** The headers of the export fetch: the stored bearer token if any, then the tenant headers. */
  function ExportHeaders(items: map<string, string>, env: Env): (h: map<string, string>)
    ensures ContentType !in h
    ensures Authorization in h <==> Truthy(GetToken(items))
    ensures Authorization in h ==> h[Authorization] == "Bearer " + items[TokenKey]
    ensures forall k :: k in TenantHeaders(items, env) ==> k in h && h[k] == TenantHeaders(items, env)[k]
    ensures h.Keys == TenantHeaders(items, env).Keys + (if Authorization in h then {Authorization} else {})
  {
    var token := GetToken(items);
    (if Truthy(token) then map[Authorization := "Bearer " + token.value] else map[]) + TenantHeaders(items, env)
  }

  /**
   * The export is authorised and scoped exactly like an api request made without an explicit
   * token; it only lacks the JSON content type.
   */
  lemma ExportHeadersAreRequestHeadersWithoutContentType(items: map<string, string>, env: Env)
    ensures forall k :: k != ContentType ==>
      (k in ExportHeaders(items, env) <==> k in RequestHeaders(items, env, None))
    ensures forall k :: k != ContentType && k in ExportHeaders(items, env) ==>
      ExportHeaders(items, env)[k] == RequestHeaders(items, env, None)[k]
  {
    RequestHeadersContents(items, env, None);
  }
}
