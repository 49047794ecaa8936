/** What the model records of the router: a navigation (or a URL tree a guard
    returns) as its path segments and query parameters. */
module Router {
  import opened Wrappers

  /** Path segments, query parameters (a `None` value removes the parameter
      from the URL) and whether they are merged into the current ones. */
  datatype Navigation = Navigation(commands: seq<string>, queryParams: map<string, Option<string>>, merge: bool)

  /** `createUrlTree([path])`. */
  function UrlTree(path: string): (n: Navigation)
    ensures n.commands == [path] && n.queryParams == map[] && !n.merge
  {
    Navigation([path], map[], false)
  }
}
