/** The alias path rewriter: each trailing command-line argument that begins
    with one of three fixed aliases is turned into a fully qualified secret
    store path built from the selected service key's credentials. */
module Rewrite {
  import opened ServiceKeys

  /** Alias for the organisation-shared backend. */
  const OrgPrefix: string := "cf_o/"
  /** Alias for the space-shared backend. */
  const SpacePrefix: string := "cf_s/"
  /** Alias for the instance-private (generic) backend. */
  const InstancePrefix: string := "cf_i/"

  /** Go's `strings.HasPrefix`. */
  predicate HasPrefix(s: string, p: string) {
    |p| <= |s| && s[..|p|] == p
  }

  /** The three scopes an alias can name, in the order they are tried. */
  datatype Scope = Organization | Space | Instance

  /** The alias that names a scope. */
  function PrefixOf(s: Scope): (p: string)
    ensures |p| == 5 && p[4] == '/' && '/' !in p[..4]
  {
    match s
    case Organization => OrgPrefix
    case Space => SpacePrefix
    case Instance => InstancePrefix
  }

  /** The credential field a scope's alias is replaced with. */
  function PathOf(c: Credentials, s: Scope): string {
    match s
    case Organization => c.sharedBackends.organization
    case Space => c.sharedBackends.space
    case Instance => c.backends.generic
  }

  /** True when `a` begins with some alias. */
  predicate HasAlias(a: string) {
    HasPrefix(a, OrgPrefix) || HasPrefix(a, SpacePrefix) || HasPrefix(a, InstancePrefix)
  }

  /** The aliases differ at index 3, so no argument begins with two of them:
      the order in which the cases are tried never matters. */
  lemma PrefixesExclusive(a: string, s1: Scope, s2: Scope)
    requires HasPrefix(a, PrefixOf(s1)) && HasPrefix(a, PrefixOf(s2))
    ensures s1 == s2
  {
  }

  /** One argument through the `switch` of the rewrite loop: the first alias
      it begins with is replaced by the matching path and a `/`; an argument
      with no alias is forwarded untouched. */
  function RewriteArg(a: string, c: Credentials): (r: string)
    ensures !HasAlias(a) ==> r == a
    ensures forall s :: HasPrefix(a, PrefixOf(s)) ==> r == PathOf(c, s) + "/" + a[5..]
  {
    if HasPrefix(a, OrgPrefix) then
      c.sharedBackends.organization + "/" + a[|OrgPrefix|..]
    else if HasPrefix(a, SpacePrefix) then
      c.sharedBackends.space + "/" + a[|SpacePrefix|..]
    else if HasPrefix(a, InstancePrefix) then
      c.backends.generic + "/" + a[|InstancePrefix|..]
    else
      a
  }

  /** Writing an alias in front of any remainder yields the scope's path, a
      `/` and that remainder, whatever the path holds (an empty path gives
      `"/" + rest`). */
  lemma RewriteAliased(s: Scope, rest: string, c: Credentials)
    ensures RewriteArg(PrefixOf(s) + rest, c) == PathOf(c, s) + "/" + rest
  {
  }

  /** A bare alias word without its slash is not an alias. */
  lemma BareAliasForwarded(c: Credentials)
    ensures RewriteArg("cf_o", c) == "cf_o"
    ensures RewriteArg("cf_s", c) == "cf_s"
    ensures RewriteArg("cf_i", c) == "cf_i"
  {
  }

  /** The rewrite of a whole argument list, element by element. */
  function RewriteArgs(args: seq<string>, c: Credentials): (r: seq<string>)
    ensures |r| == |args|
    ensures forall i :: 0 <= i < |args| ==> r[i] == RewriteArg(args[i], c)
  {
    if |args| == 0 then [] else [RewriteArg(args[0], c)] + RewriteArgs(args[1..], c)
  }

  /** The rewrite loop as the plugin runs it: one pass in order, appending
      each rewritten argument to the list sent on. */
  method RewriteLoop(args: seq<string>, c: Credentials) returns (argsToSend: seq<string>)
    ensures argsToSend == RewriteArgs(args, c)
    ensures |argsToSend| == |args|
    ensures forall i :: 0 <= i < |args| && !HasAlias(args[i]) ==> argsToSend[i] == args[i]
  {
    argsToSend := [];
    var i := 0;
    while i < |args|
      invariant i <= |args|
      invariant |argsToSend| == i
      invariant forall j :: 0 <= j < i ==> argsToSend[j] == RewriteArg(args[j], c)
    {
      argsToSend := argsToSend + [RewriteArg(args[i], c)];
      i := i + 1;
    }
  }

  /** Rewriting distributes over concatenation: no argument's output depends
      on its neighbours. */
  lemma RewriteArgsAppend(a: seq<string>, b: seq<string>, c: Credentials)
    ensures RewriteArgs(a + b, c) == RewriteArgs(a, c) + RewriteArgs(b, c)
  {
  }

  /** No credential path, followed by its `/`, begins with an alias. */
  predicate AliasFree(c: Credentials) {
    forall s :: !HasAlias(PathOf(c, s) + "/")
  }

  /** If `g` does not begin with the alias `p`, then neither does `g + rest`,
      provided `g` ends in the alias's only `/`. */
  lemma NoPrefixAfterSlash(f: string, rest: string, p: string)
    requires |p| == 5 && p[4] == '/' && '/' !in p[..4]
    requires !HasPrefix(f + "/", p)
    ensures !HasPrefix(f + "/" + rest, p)
  {
    if |f| < 4 {
      assert p[|f|] in p[..4];
    }
  }

  /** When no path begins with an alias, a rewritten argument is never
      rewritten again: the rewrite is idempotent. */
  lemma RewriteIdempotent(a: string, c: Credentials)
    requires AliasFree(c)
    ensures RewriteArg(RewriteArg(a, c), c) == RewriteArg(a, c)
  {
    if HasAlias(a) {
      var s :| HasPrefix(a, PrefixOf(s));
      var f := PathOf(c, s);
      NoPrefixAfterSlash(f, a[5..], OrgPrefix);
      NoPrefixAfterSlash(f, a[5..], SpacePrefix);
      NoPrefixAfterSlash(f, a[5..], InstancePrefix);
    }
  }

  /** Because the match is made on the original argument, rewriting is
      applied once: a second pass can change the result when a path itself
      begins with an alias. */
  lemma SecondPassDiffers()
    ensures var c := Credentials("", Auth(""), Backends(""), SharedBackends("cf_s", "spaces/dev"));
      RewriteArg(RewriteArg("cf_o/x", c), c) != RewriteArg("cf_o/x", c)
  {
  }

  /** Worked examples of the three aliases. */
  lemma RewriteExamples(c: Credentials)
    requires c.sharedBackends.organization == "orgs/acme"
    requires c.sharedBackends.space == "spaces/dev"
    requires c.backends.generic == "instances/abc123"
    ensures RewriteArg("cf_o/secret/foo", c) == "orgs/acme/secret/foo"
    ensures RewriteArg("cf_s/db/pass", c) == "spaces/dev/db/pass"
    ensures RewriteArg("cf_i/token", c) == "instances/abc123/token"
  {
    RewriteAliased(Organization, "secret/foo", c);
    RewriteAliased(Space, "db/pass", c);
    RewriteAliased(Instance, "token", c);
  }
}
