/**
 * `bolt/router.py`: a Router only records registrations, with its prefix
 * prepended to each path, for an application to compile later.
 */
module Routers {
  import opened Signature

  /** One entry of `Router.routes`: the full path, the method and the handler. */
  datatype RouterEntry = RouterEntry(path: string, httpMethod: string, handler: Func)

  class Router {
    var prefix: string
    var routes: seq<RouterEntry>

    /** Every recorded path starts with the router's prefix. */
    ghost predicate Valid()
      reads this
    {
      forall i :: 0 <= i < |routes| ==> prefix <= routes[i].path
    }

    /** `Router(prefix)`; the default prefix is "" and is the caller's to pass. */
    constructor (prefix: string)
      ensures Valid()
      ensures this.prefix == prefix && routes == []
    {
      this.prefix := prefix;
      routes := [];
    }

    /** `_register(path, method)(func)`: record the prefixed path and hand `func` back unchanged. */
    method Register(path: string, httpMethod: string, f: Func) returns (g: Func)
      requires Valid()
      modifies this
      ensures Valid()
      ensures prefix == old(prefix)
      ensures routes == old(routes) + [RouterEntry(old(prefix) + path, httpMethod, f)]
      ensures old(prefix) == "" ==> routes[|routes| - 1].path == path
      ensures g == f
    {
      var fullPath := prefix + path;
      routes := routes + [RouterEntry(fullPath, httpMethod, f)];
      g := f;
    }

    method Get(path: string, f: Func) returns (g: Func)
      requires Valid()
      modifies this
      ensures Valid() && prefix == old(prefix) && g == f
      ensures routes == old(routes) + [RouterEntry(old(prefix) + path, "GET", f)]
    {
      g := Register(path, "GET", f);
    }

    method Post(path: string, f: Func) returns (g: Func)
      requires Valid()
      modifies this
      ensures Valid() && prefix == old(prefix) && g == f
      ensures routes == old(routes) + [RouterEntry(old(prefix) + path, "POST", f)]
    {
      g := Register(path, "POST", f);
    }

    method Put(path: string, f: Func) returns (g: Func)
      requires Valid()
      modifies this
      ensures Valid() && prefix == old(prefix) && g == f
      ensures routes == old(routes) + [RouterEntry(old(prefix) + path, "PUT", f)]
    {
      g := Register(path, "PUT", f);
    }

    method Delete(path: string, f: Func) returns (g: Func)
      requires Valid()
      modifies this
      ensures Valid() && prefix == old(prefix) && g == f
      ensures routes == old(routes) + [RouterEntry(old(prefix) + path, "DELETE", f)]
    {
      g := Register(path, "DELETE", f);
    }

    method Patch(path: string, f: Func) returns (g: Func)
      requires Valid()
      modifies this
      ensures Valid() && prefix == old(prefix) && g == f
      ensures routes == old(routes) + [RouterEntry(old(prefix) + path, "PATCH", f)]
    {
      g := Register(path, "PATCH", f);
    }
  }
}
