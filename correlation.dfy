/** The servlet filter that tags each request with a correlation id: it
    takes the id from the `X-Correlation-Id` header or generates one, puts
    it in the logging context (the MDC) for the rest of the chain, and
    removes it again however the chain ends. */
module Correlation {
  import opened Wrappers
  import opened JavaText

  const HeaderCorrelationId := "X-Correlation-Id"
  /** The MDC key the filter manages. */
  const CorrelationKey := "correlationId"

  /** An incoming request, reduced to its headers. */
  datatype Request = Request(headers: map<string, string>)

  /** The response handed down the chain; its content plays no part. */
  datatype Response = Response(handle: int)

  /** How the rest of the chain ended. */
  datatype Outcome = Completed | Threw(exception: string)

  /** One invocation of the rest of the chain, with the MDC it saw. */
  datatype Call = Call(request: Request, response: Response, context: map<string, string>)

  /** The header's value, if the request carries it. */
  function GetHeader(req: Request, name: string): (r: Option<string>)
    ensures r.Some? <==> name in req.headers
    ensures r.Some? ==> r.value == req.headers[name]
  {
    if name in req.headers then Some(req.headers[name]) else None
  }

  /** The id the filter uses: the header when present and not blank,
      otherwise `freshId`, the newly generated UUID. */
  function ChooseCorrelationId(header: Option<string>, freshId: string): (r: string)
    ensures header.Some? && !IsBlank(header.value) ==> r == header.value
    ensures header.None? || IsBlank(header.value) ==> r == freshId
  {
    if header.None? || IsBlank(header.value) then freshId else header.value
  }

  /** With a non-blank generated id, the chosen id is never blank, and it
      is one of the two candidates. */
  lemma ChosenIdNeverBlank(header: Option<string>, freshId: string)
    requires !IsBlank(freshId)
    ensures !IsBlank(ChooseCorrelationId(header, freshId))
    ensures ChooseCorrelationId(header, freshId) == freshId
      || (header.Some? && ChooseCorrelationId(header, freshId) == header.value)
  {
  }

  /** Putting a key and removing it again leaves every other entry as it
      was; when the key was absent, the whole context is restored. */
  lemma PutThenRemoveRestores(m: map<string, string>, k: string, v: string)
    ensures m[k := v] - {k} == m - {k}
    ensures k !in m ==> m[k := v] - {k} == m
  {
    assert (m[k := v] - {k}).Keys == (m - {k}).Keys;
    if k !in m {
      assert (m - {k}).Keys == m.Keys;
    }
  }

  /** The thread's mapped diagnostic context. */
  class Mdc {
    var entries: map<string, string>

    constructor(initial: map<string, string>)
      ensures entries == initial
    {
      entries := initial;
    }

    method Put(key: string, value: string)
      modifies this
      ensures entries == old(entries)[key := value]
    {
      entries := entries[key := value];
    }

    method Remove(key: string)
      modifies this
      ensures entries == old(entries) - {key}
    {
      entries := entries - {key};
    }
  }

  /** The rest of the filter chain: it records each call with the MDC
      entries visible during it, and ends as `outcome` says. */
  class FilterChain {
    var calls: seq<Call>
    const outcome: Outcome

    constructor(outcome: Outcome)
      ensures calls == [] && this.outcome == outcome
    {
      calls := [];
      this.outcome := outcome;
    }

    method DoFilter(req: Request, res: Response, mdc: Mdc) returns (r: Outcome)
      modifies this
      ensures calls == old(calls) + [Call(req, res, mdc.entries)]
      ensures r == outcome
    {
      calls := calls + [Call(req, res, mdc.entries)];
      r := outcome;
    }
  }

  /** `doFilter`: choose the id, put it in the MDC, run the chain once with
      the same request and response, and remove the id whether the chain
      completed or threw; the chain's outcome is passed on. */
  method DoFilter(req: Request, res: Response, chain: FilterChain, mdc: Mdc, freshId: string)
    returns (r: Outcome)
    modifies chain, mdc
    ensures var id := ChooseCorrelationId(GetHeader(req, HeaderCorrelationId), freshId);
      chain.calls == old(chain.calls) + [Call(req, res, old(mdc.entries)[CorrelationKey := id])]
    ensures mdc.entries == old(mdc.entries) - {CorrelationKey}
    ensures r == chain.outcome
  {
    var correlationId := GetHeader(req, HeaderCorrelationId);
    var id := ChooseCorrelationId(correlationId, freshId);
    mdc.Put(CorrelationKey, id);
    r := chain.DoFilter(req, res, mdc);
    mdc.Remove(CorrelationKey);
    PutThenRemoveRestores(old(mdc.entries), CorrelationKey, id);
  }

  /** A request without the header runs the chain under the generated id. */
  lemma MissingHeaderUsesFreshId(req: Request, freshId: string)
    requires HeaderCorrelationId !in req.headers
    ensures ChooseCorrelationId(GetHeader(req, HeaderCorrelationId), freshId) == freshId
  {
  }

  /** A header holding only whitespace is replaced by the generated id. */
  lemma WhitespaceHeaderReplaced(req: Request, freshId: string)
    requires HeaderCorrelationId in req.headers && req.headers[HeaderCorrelationId] == " \t"
    ensures ChooseCorrelationId(GetHeader(req, HeaderCorrelationId), freshId) == freshId
  {
  }
}
