/**
 * The `getBookings` endpoint of the booking API slice: its query builder
 * turns a list of `{ name, value }` entries into URL search parameters,
 * appended one by one in list order, for the fixed path "/bookings".
 */
module BookingApi {
  import opened JsStrings
  import opened ApiShapes
  import BookingManagement

  /** What the hook is called with: an array of entries, or anything that is not an array. */
  datatype QueryArgs = ArgArray(entries: seq<Param>) | NotAnArray

  /** The entries the builder reads: an array's own, none otherwise. */
  function EntriesOf(args: QueryArgs): seq<Param>
  {
    match args
    case ArgArray(entries) => entries
    case NotAnArray => []
  }

  /** All values listed under a name, in order (URLSearchParams.getAll). */
  function ValuesNamed(ps: seq<Param>, name: string): (vs: seq<string>)
    ensures |vs| <= |ps|
    ensures vs == [] <==> !HasParam(ps, name)
    ensures forall v :: v in vs ==> exists k :: 0 <= k < |ps| && ps[k] == Param(name, v)
  {
    if ps == [] then []
    else
      var rest := ValuesNamed(ps[1..], name);
      assert HasParam(ps, name) <==> ps[0].name == name || HasParam(ps[1..], name) by {
        if HasParam(ps[1..], name) {
          var i :| 0 <= i < |ps[1..]| && ps[1..][i].name == name;
          assert ps[i + 1].name == name;
        }
        if HasParam(ps, name) && ps[0].name != name {
          var i :| 0 <= i < |ps| && ps[i].name == name;
          assert ps[1..][i - 1].name == name;
        }
      }
      assert forall v :: v in rest ==> exists k :: 0 <= k < |ps| && ps[k] == Param(name, v) by {
        forall v | v in rest ensures exists k :: 0 <= k < |ps| && ps[k] == Param(name, v) {
          var j :| 0 <= j < |ps[1..]| && ps[1..][j] == Param(name, v);
          assert ps[j + 1] == Param(name, v);
        }
      }
      (if ps[0].name == name then [ps[0].value] else []) + rest
  }

  /** Appending an entry adds its value at the end of its name's values and changes no other name. */
  lemma {:induction false} ValuesNamedAppend(ps: seq<Param>, p: Param, name: string)
    ensures ValuesNamed(ps + [p], name) == ValuesNamed(ps, name) + (if p.name == name then [p.value] else [])
  {
    if ps == [] {
      assert ps + [p] == [p];
    } else {
      assert (ps + [p])[1..] == ps[1..] + [p];
      ValuesNamedAppend(ps[1..], p, name);
    }
  }

  /** Values under a name over a concatenation are those of each part, in order: nothing is overwritten. */
  lemma {:induction false} ValuesNamedConcat(ps: seq<Param>, qs: seq<Param>, name: string)
    ensures ValuesNamed(ps + qs, name) == ValuesNamed(ps, name) + ValuesNamed(qs, name)
  {
    if ps == [] {
      assert ps + qs == qs;
    } else {
      assert (ps + qs)[1..] == ps[1..] + qs;
      ValuesNamedConcat(ps[1..], qs, name);
    }
  }

  /** Two entries with the same name both survive, in their order. */
  lemma DuplicateNamesKept(ps: seq<Param>, name: string, v1: string, v2: string)
    ensures ValuesNamed(ps + [Param(name, v1)] + [Param(name, v2)], name) == ValuesNamed(ps, name) + [v1, v2]
  {
    ValuesNamedAppend(ps, Param(name, v1), name);
    ValuesNamedAppend(ps + [Param(name, v1)], Param(name, v2), name);
  }

  /** A URLSearchParams object: an ordered list of name/value pairs. */
  class SearchParams {
    var pairs: seq<Param>

    constructor ()
      ensures pairs == []
    {
      pairs := [];
    }

    /** `append(name, value)`: adds a pair at the end, even if the name is already present. */
    method Append(name: string, value: string)
      modifies this
      ensures pairs == old(pairs) + [Param(name, value)]
    {
      pairs := pairs + [Param(name, value)];
    }
  }

  /** The request the builder returns: the path and the search parameters. */
  datatype Request = Request(url: string, params: SearchParams)

  /** `getBookings.query(args)`. */
  method GetBookingsQuery(args: QueryArgs) returns (req: Request)
    ensures fresh(req.params)
    ensures req.url == "/bookings"
    ensures req.params.pairs == EntriesOf(args)
  {
    var params := new SearchParams();
    if args.ArgArray? {
      var i := 0;
      while i < |args.entries|
        invariant 0 <= i <= |args.entries|
        invariant params.pairs == args.entries[..i]
      {
        params.Append(args.entries[i].name, args.entries[i].value);
        i := i + 1;
      }
    }
    req := Request("/bookings", params);
  }

  /** The booking page's parameter list reaches the request unchanged, so `getAll` sees what it built. */
  method BookingPageRequest(currentPage: int, searchText: string, statusFilter: string) returns (req: Request)
    ensures fresh(req.params)
    ensures req.url == "/bookings"
    ensures |req.params.pairs| == 2 + (if Trim(searchText) != "" then 1 else 0)
                                    + (if BookingManagement.StatusFilterActive(statusFilter) then 1 else 0)
    ensures req.params.pairs[0] == Param("page", IntToString(currentPage))
    ensures req.params.pairs[1] == Param("limit", IntToString(BookingManagement.PerPage))
    ensures forall i :: 2 <= i < |req.params.pairs| ==>
      req.params.pairs[i].name == "searchTerm" || req.params.pairs[i].name == "bookingStatus"
    ensures HasParam(req.params.pairs, "searchTerm") <==> Trim(searchText) != ""
    ensures ValueIs(req.params.pairs, "searchTerm", Trim(searchText))
    ensures HasParam(req.params.pairs, "bookingStatus") <==> BookingManagement.StatusFilterActive(statusFilter)
    ensures ValueIs(req.params.pairs, "bookingStatus", ToUpper(statusFilter))
    ensures Before(req.params.pairs, "searchTerm", "bookingStatus")
  {
    var params := BookingManagement.BuildQueryParams(currentPage, BookingManagement.PerPage, searchText, statusFilter);
    req := GetBookingsQuery(ArgArray(params));
  }
}
