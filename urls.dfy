/** `urljoin(base, path, query)`: join a base URL and a resource path with
    exactly one slash between them, and append `?query` only when there is a
    query. Query parameters are written `key=value` and joined with `&`;
    percent-encoding is not modelled. */
module Urls {
  import opened Strings

  type Query = seq<(string, string)>

  function QueryString(query: Query): (r: string)
    ensures query == [] <==> r == []
  {
    Join("&", seq(|query|, i requires 0 <= i < |query| => query[i].0 + "=" + query[i].1))
  }

  function UrlJoin(base: string, path: string, query: Query): (r: string)
    ensures var head := RStripSlash(base) + "/" + LStripSlash(path);
      head <= r && (query == [] <==> r == head)
    ensures query != [] ==> r == RStripSlash(base) + "/" + LStripSlash(path) + "?" + QueryString(query)
  {
    Assemble(RStripSlash(base), LStripSlash(path), query)
  }

  /** The joined URL from an already stripped base and path. */
  function Assemble(b: string, p: string, query: Query): string {
    var url := b + "/" + p;
    if query != [] then url + "?" + QueryString(query) else url
  }

  /** At the join point there is one slash: the base part does not end with
      one and the path part does not start with one. */
  lemma JoinPointHasOneSlash(base: string, path: string, query: Query)
    ensures var b := RStripSlash(base);
      var r := UrlJoin(base, path, query);
      |b| < |r| && r[..|b|] == b && r[|b|] == '/' &&
      (b == [] || r[|b| - 1] != '/') &&
      (LStripSlash(path) != [] ==> r[|b| + 1] != '/')
  {
    AssembleJoinPoint(RStripSlash(base), LStripSlash(path), query);
  }

  lemma AssembleJoinPoint(b: string, p: string, query: Query)
    requires b == [] || b[|b| - 1] != '/'
    requires p == [] || p[0] != '/'
    ensures var r := Assemble(b, p, query);
      |b| < |r| && r[..|b|] == b && r[|b|] == '/' &&
      (b == [] || r[|b| - 1] != '/') &&
      (p != [] ==> r[|b| + 1] != '/')
  {
    var head := b + "/" + p;
    var r := Assemble(b, p, query);
    assert r[..|head|] == head;
    assert head[..|b|] == b;
  }

  lemma {:induction false} RStripTrailingSlashes(s: string, k: nat)
    ensures RStripSlash(s + Repeat('/', k)) == RStripSlash(s)
  {
    if k > 0 {
      var t := s + Repeat('/', k);
      assert t[|t| - 1] == '/';
      assert Repeat('/', k) == Repeat('/', k - 1) + ['/'];
      assert t[..|t| - 1] == s + Repeat('/', k - 1);
      RStripTrailingSlashes(s, k - 1);
    } else {
      assert s + Repeat('/', k) == s;
    }
  }

  lemma {:induction false} LStripLeadingSlashes(s: string, k: nat)
    ensures LStripSlash(Repeat('/', k) + s) == LStripSlash(s)
  {
    if k > 0 {
      var t := Repeat('/', k) + s;
      assert t[0] == '/';
      assert t[1..] == Repeat('/', k - 1) + s;
      LStripLeadingSlashes(s, k - 1);
    } else {
      assert Repeat('/', k) + s == s;
    }
  }

  /** Slashes on either side of the join point make no difference. */
  lemma UrlJoinIgnoresExtraSlashes(base: string, path: string, query: Query, j: nat, k: nat)
    ensures UrlJoin(base + Repeat('/', j), Repeat('/', k) + path, query) == UrlJoin(base, path, query)
  {
    var base' := base + Repeat('/', j);
    var path' := Repeat('/', k) + path;
    RStripTrailingSlashes(base, j);
    LStripLeadingSlashes(path, k);
    assert UrlJoin(base', path', query) == Assemble(RStripSlash(base'), LStripSlash(path'), query);
  }
}
