/** The path rewrite of the development proxy in vite.config.ts:
    `path.replace(/^\/api\/hume/, '')`. */
module ViteProxy {

  /** The prefix the proxy routes on. */
  const ProxyPrefix: string := "/api/hume"

  /** Drops one leading `/api/hume` (anchored, not global); any other path is
      passed through. No segment boundary is required after the prefix. */
  function Rewrite(path: string): (r: string)
    ensures |r| <= |path| && r == path[|path| - |r|..]
    ensures ProxyPrefix <= path ==> r == path[|ProxyPrefix|..]
    ensures !(ProxyPrefix <= path) ==> r == path
  {
    if ProxyPrefix <= path then path[|ProxyPrefix|..] else path
  }

  /** The proxied path is the rest after the prefix, whatever follows it. */
  lemma StripsPrefix(rest: string)
    ensures Rewrite(ProxyPrefix + rest) == rest
  {
  }

  /** Only the first occurrence goes: later ones stay in the path. */
  lemma OnlyLeadingOccurrence(rest: string)
    ensures Rewrite(ProxyPrefix + ProxyPrefix + rest) == ProxyPrefix + rest
  {
  }

  /** The rewrite is not idempotent: a second pass removes a second prefix. */
  lemma NotIdempotent()
    ensures Rewrite("/api/hume/api/hume/x") == "/api/hume/x"
    ensures Rewrite(Rewrite("/api/hume/api/hume/x")) == "/x"
  {
  }

  /** No path boundary: `/api/humeX` becomes `X`. */
  lemma NoSegmentBoundary()
    ensures Rewrite("/api/humeX") == "X"
  {
  }
}
