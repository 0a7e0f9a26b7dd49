/**
 * Shapes shared by the dashboard pages: the `{name, value}` query
 * parameter list handed to the booking and transaction queries, and the
 * backend's paginated response envelope `{success, data: {data, meta}}`
 * with the defaults the pages apply when parts of it are missing.
 */
module ApiShapes {
  import opened JsValues

  /** One `{ name, value }` entry of a query parameter list. */
  datatype Param = Param(name: string, value: string)

  predicate HasParam(ps: seq<Param>, name: string) {
    exists i :: 0 <= i < |ps| && ps[i].name == name
  }

  /** Every entry with this name carries this value. */
  predicate ValueIs(ps: seq<Param>, name: string, value: string) {
    forall i :: 0 <= i < |ps| && ps[i].name == name ==> ps[i].value == value
  }

  /** Every entry named `first` comes before every entry named `second`. */
  predicate Before(ps: seq<Param>, first: string, second: string) {
    forall i, j :: 0 <= i < |ps| && 0 <= j < |ps| && ps[i].name == first && ps[j].name == second ==> i < j
  }

  /** A populated user reference such as `parentId` or `nanny`: `{ name, email }`. */
  datatype Party = Party(name: Option<string>, email: Option<string>)

  /** `party?.name`. */
  function NameOf(party: Option<Party>): Option<string>
  {
    if party.Some? then party.value.name else None
  }

  /** `party?.email`. */
  function EmailOf(party: Option<Party>): Option<string>
  {
    if party.Some? then party.value.email else None
  }

  datatype Meta = Meta(total: Option<int>, limit: Option<int>, page: Option<int>, totalPage: Option<int>)

  datatype Envelope<T> = Envelope(data: Option<seq<T>>, meta: Option<Meta>)

  datatype Response<T> = Response(success: Option<bool>, data: Option<Envelope<T>>)

  /** `{ total: 0, limit: 10, page: 1, totalPage: 1 }`, used when a response carries no meta. */
  const DefaultMeta: Meta := Meta(Some(0), Some(10), Some(1), Some(1))

  /** `resp?.data`: the envelope, when both the response and its data are present. */
  function EnvelopeOf<T>(resp: Option<Response<T>>): Option<Envelope<T>>
  {
    if resp.Some? then resp.value.data else None
  }

  /** `resp?.data?.data || []`: an array, even an empty one, is truthy. */
  function Records<T>(resp: Option<Response<T>>): seq<T>
  {
    match EnvelopeOf(resp)
    case Some(Envelope(Some(rows), _)) => rows
    case _ => []
  }

  /** `resp?.data?.meta`. */
  function MetaOf<T>(resp: Option<Response<T>>): Option<Meta>
  {
    match EnvelopeOf(resp)
    case Some(env) => env.meta
    case None => None
  }

  /** `resp?.data?.meta || DefaultMeta`. */
  function MetaOrDefault<T>(resp: Option<Response<T>>): Meta
  {
    match MetaOf(resp)
    case Some(meta) => meta
    case None => DefaultMeta
  }

  /** `resp?.data?.meta?.totalPage`. */
  function TotalPageOf<T>(resp: Option<Response<T>>): Option<int> {
    match MetaOf(resp)
    case Some(meta) => meta.totalPage
    case None => None
  }

  /** `resp?.data?.meta?.total`. */
  function TotalOf<T>(resp: Option<Response<T>>): Option<int> {
    match MetaOf(resp)
    case Some(meta) => meta.total
    case None => None
  }

  /** A response with nothing in it yields no records and the default meta. */
  lemma MissingResponseDefaults<T>()
    ensures Records<T>(None) == []
    ensures MetaOrDefault<T>(None) == DefaultMeta
    ensures MetaOrDefault<T>(None).totalPage == Some(1) && MetaOrDefault<T>(None).total == Some(0)
  {
  }
}
