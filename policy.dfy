/**
 The datastore key codec for network policies (libcalico-go/lib/backend/model/policy.go).

 A policy is stored under `/calico/v1/policy/tier/<tier>/policy/<escaped name>`.
 `PolicyKey` builds that path, `PolicyListOptions` builds the prefix used to list
 a partially specified set of policies and parses listed paths back into keys.

 The package's `escapeName` and `unescapeName` are supplied by the caller as the
 function values `escape` and `unescape`; every property that depends on them
 states what it needs of them for the names it concerns.
 */
module Policy {
  import opened Wrappers
  import opened Segments

  /** Names with this prefix would denote staged policies. */
  const PolicyNamePrefixStaged: string := "staged:"

  /**
   Whether a policy name denotes a staged policy. Staged policies are not
   supported yet, so no name is reported as staged, not even one that starts
   with `PolicyNamePrefixStaged`.
   */
  function PolicyIsStaged(name: string): (staged: bool)
    ensures !staged
  {
    false
  }

  /** The error returned when a key lacks an identifying field. */
  datatype Error = InsufficientIdentifiers(name: string)

  /** The identity of a policy: its name within its tier. */
  datatype PolicyKey = PolicyKey(name: string, tier: string)

  /** The filter of a list request; an empty field leaves that field unconstrained. */
  datatype PolicyListOptions = PolicyListOptions(name: string, tier: string)

  /** The options that constrain nothing. */
  const NoFilter: PolicyListOptions := PolicyListOptions("", "")

  /** The common prefix of every policy path. */
  const TierRoot: string := "/calico/v1/policy/tier"

  /** True when `options` lets `key` through: each non-empty field equals the key's. */
  predicate Admits(options: PolicyListOptions, key: PolicyKey) {
    && (options.tier == "" || options.tier == key.tier)
    && (options.name == "" || options.name == key.name)
  }

  /**
   The path a policy is stored under. The tier is checked before the name, so
   a key missing both is reported as missing its tier.
   */
  function DefaultPath(key: PolicyKey, escape: string -> string): (r: Result<string, Error>)
    ensures key.tier == "" ==> r == Err(InsufficientIdentifiers("tier"))
    ensures key.tier != "" && key.name == "" ==> r == Err(InsufficientIdentifiers("name"))
    ensures r.Ok? <==> key.tier != "" && key.name != ""
  {
    if key.tier == "" then Err(InsufficientIdentifiers("tier"))
    else if key.name == "" then Err(InsufficientIdentifiers("name"))
    else Ok(TierRoot + "/" + key.tier + "/policy/" + escape(key.name))
  }

  /** A policy is deleted at the path it is stored under. */
  function DefaultDeletePath(key: PolicyKey, escape: string -> string): (r: Result<string, Error>)
    ensures r == DefaultPath(key, escape)
  {
    DefaultPath(key, escape)
  }

  /** Deleting a policy leaves no parent path to clean up, and never fails. */
  function DefaultDeleteParentPaths(key: PolicyKey): (r: Result<seq<string>, Error>)
    ensures r == Ok([])
  {
    Ok([])
  }

  /** The human-readable form of a key. */
  function KeyString(key: PolicyKey): (s: string) {
    "Policy(tier=" + key.tier + ", name=" + key.name + ")"
  }

  /**
   The prefix under which the policies selected by `options` are listed.
   Without a tier the name is ignored and every policy is covered; with a
   tier only it is the directory of that tier's policies; with both
   fields set the prefix is the path of that one policy.
   */
  function DefaultPathRoot(options: PolicyListOptions, escape: string -> string): (root: string)
    ensures TierRoot <= root
    ensures options.tier == "" ==> root == TierRoot
    ensures options.tier != "" && options.name == "" ==> root == TierRoot + "/" + options.tier + "/policy"
    ensures options.tier != "" && options.name != "" ==>
              DefaultPath(PolicyKey(options.name, options.tier), escape) == Ok(root)
  {
    var k := TierRoot;
    if options.tier == "" then k
    else
      var k := k + "/" + options.tier + "/policy";
      if options.name == "" then k
      else
        PathLiterals();
        ConcatAssoc(TierRoot + "/" + options.tier, "/policy", "/");
        k + "/" + escape(options.name)
  }

  // The anchored pattern ^/?calico/v1/policy/tier/([^/]+)/policy/([^/]+)$ as
  // its literal pieces; its two groups capture the tier and the escaped name.
  const PatternHead: string := "calico/v1/policy/tier/"
  const PatternMid: string := "/policy/"

  /** The pattern's literal pieces are those of the stored paths. */
  lemma PathLiterals()
    ensures "/" + PatternHead == TierRoot + "/"
    ensures "/policy" + "/" == PatternMid
  {
  }

  /**
   Reference reading of the pattern: `path` is matched, with `tier` and `name`
   as its captures. Go's `$` without the multi-line flag anchors at the end of
   the text, and `[^/]` matches every other character, newline included.
   */
  predicate MatchesPolicyPattern(path: string, tier: string, name: string) {
    && IsSegment(tier)
    && IsSegment(name)
    && (path == PatternHead + tier + PatternMid + name || path == "/" + PatternHead + tier + PatternMid + name)
  }

  /** `path` without its leading '/', if it has one (the pattern's `/?`). */
  function DropLeadingSlash(path: string): (body: string)
    ensures path == body || path == "/" + body
  {
    if |path| > 0 && path[0] == '/' then
      assert path == [path[0]] + path[1..];
      path[1..]
    else path
  }

  /**
   Segment parser that stands for the pattern: drop an optional leading '/',
   the fixed head, a tier up to the next '/', the fixed middle, and take the
   rest as the name segment.
   */
  function ParsePolicyPath(path: string): (r: Option<(string, string)>) {
    match StripPrefix(PatternHead, DropLeadingSlash(path))
    case None => None
    case Some(rest) =>
      var i := FirstSlash(rest);
      var tier := rest[..i];
      match StripPrefix(PatternMid, rest[i..])
      case None => None
      case Some(name) => if tier != "" && IsSegment(name) then Some((tier, name)) else None
  }

  /** Whatever the parser accepts, the pattern matches with the same captures. */
  lemma ParsePolicyPathSound(path: string)
    requires ParsePolicyPath(path).Some?
    ensures MatchesPolicyPattern(path, ParsePolicyPath(path).value.0, ParsePolicyPath(path).value.1)
  {
    var body := DropLeadingSlash(path);
    var rest := StripPrefix(PatternHead, body).value;
    var i := FirstSlash(rest);
    var tier := rest[..i];
    var name := StripPrefix(PatternMid, rest[i..]).value;
    assert rest == tier + rest[i..];
    ConcatRegroup(PatternHead, tier, PatternMid, name);
  }

  /** Whatever the pattern matches, the parser accepts with the same captures. */
  lemma ParsePolicyPathComplete(path: string, tier: string, name: string)
    requires MatchesPolicyPattern(path, tier, name)
    ensures ParsePolicyPath(path) == Some((tier, name))
  {
    var body := PatternHead + tier + PatternMid + name;
    ConcatRegroup(PatternHead, tier, PatternMid, name);
    assert DropLeadingSlash(path) == body by {
      if path == "/" + body {
        assert path[1..] == body;
      } else {
        assert path[0] == PatternHead[0];
      }
    }
    StripPrefixOfConcat(PatternHead, tier + (PatternMid + name));
    var rest := tier + (PatternMid + name);
    FirstSlashAfterSegment(tier, PatternMid + name);
    assert rest[..|tier|] == tier;
    assert rest[|tier|..] == PatternMid + name;
    StripPrefixOfConcat(PatternMid, name);
  }

  /** The parser answers exactly the pattern: it accepts `path` with `(tier, name)` iff the pattern does. */
  lemma ParsePolicyPathIff(path: string, tier: string, name: string)
    ensures ParsePolicyPath(path) == Some((tier, name)) <==> MatchesPolicyPattern(path, tier, name)
  {
    if ParsePolicyPath(path) == Some((tier, name)) {
      ParsePolicyPathSound(path);
    }
    if MatchesPolicyPattern(path, tier, name) {
      ParsePolicyPathComplete(path, tier, name);
    }
  }

  /**
   The key stored under `path`, if `path` is a policy path whose tier and
   unescaped name pass the filter of `options`; the tier is taken verbatim.
   */
  function KeyFromDefaultPath(options: PolicyListOptions, path: string, unescape: string -> string): (r: Option<PolicyKey>)
    ensures r.Some? ==> Admits(options, r.value)
    ensures r.Some? ==> ParsePolicyPath(path).Some?
  {
    match ParsePolicyPath(path)
    case None => None
    case Some((tier, segment)) =>
      var name := unescape(segment);
      if options.tier != "" && tier != options.tier then None
      else if options.name != "" && name != options.name then None
      else Some(PolicyKey(name, tier))
  }

  /** A path the pattern does not match yields no key, whatever the filter. */
  lemma KeyFromUnmatchedPath(options: PolicyListOptions, path: string, unescape: string -> string)
    requires forall tier, name :: !MatchesPolicyPattern(path, tier, name)
    ensures KeyFromDefaultPath(options, path, unescape) == None
  {
    if ParsePolicyPath(path).Some? {
      ParsePolicyPathSound(path);
    }
  }

  /**
   On a matched path the key is the verbatim tier and the unescaped name, and
   it is dropped exactly when a non-empty filter field differs from it.
   */
  lemma KeyFromMatchedPath(options: PolicyListOptions, path: string, unescape: string -> string,
                           tier: string, segment: string)
    requires MatchesPolicyPattern(path, tier, segment)
    ensures KeyFromDefaultPath(options, path, unescape) ==
              if options.tier != "" && tier != options.tier then None
              else if options.name != "" && unescape(segment) != options.name then None
              else Some(PolicyKey(unescape(segment), tier))
  {
    ParsePolicyPathComplete(path, tier, segment);
  }

  /**
   The filter fields are exact-match constraints: filtering while parsing is
   parsing without a filter and then keeping the key only if `options` admits it.
   */
  lemma FilterIsExactMatch(options: PolicyListOptions, path: string, unescape: string -> string)
    ensures KeyFromDefaultPath(options, path, unescape) ==
              match KeyFromDefaultPath(NoFilter, path, unescape)
              case None => None
              case Some(key) => if Admits(options, key) then Some(key) else None
  {
  }

  /**
   Storing then parsing gives the key back: for a slash-free tier and a name
   whose escaped form is a segment that unescapes to it, the stored path is
   parsed to the key under every filter that admits it, and to nothing otherwise.
   */
  lemma {:induction false} KeyPathRoundTrip(options: PolicyListOptions, key: PolicyKey,
                                           escape: string -> string, unescape: string -> string)
    requires IsSegment(key.tier) && key.name != ""
    requires IsSegment(escape(key.name)) && unescape(escape(key.name)) == key.name
    ensures DefaultPath(key, escape).Ok?
    ensures KeyFromDefaultPath(options, DefaultPath(key, escape).value, unescape) ==
              if Admits(options, key) then Some(key) else None
  {
    var path := DefaultPath(key, escape).value;
    assert path == "/" + PatternHead + key.tier + PatternMid + escape(key.name);
    KeyFromMatchedPath(options, path, unescape, key.tier, escape(key.name));
  }

  /**
   Parsing then storing gives the path back, when the path is in the canonical
   form with a leading '/' and the name segment is the escaped form of a
   non-empty name.
   */
  lemma {:induction false} PathKeyRoundTrip(path: string, escape: string -> string, unescape: string -> string,
                                           tier: string, segment: string)
    requires MatchesPolicyPattern(path, tier, segment) && path[0] == '/'
    requires unescape(segment) != "" && escape(unescape(segment)) == segment
    ensures KeyFromDefaultPath(NoFilter, path, unescape) == Some(PolicyKey(unescape(segment), tier))
    ensures DefaultPath(PolicyKey(unescape(segment), tier), escape) == Ok(path)
  {
    KeyFromMatchedPath(NoFilter, path, unescape, tier, segment);
    assert path[0] != PatternHead[0];
    PathLiterals();
  }

  /** The list prefix of any filter that admits a storable key is a prefix of that key's path. */
  lemma ListRootCoversAdmittedKeys(options: PolicyListOptions, key: PolicyKey, escape: string -> string)
    requires DefaultPath(key, escape).Ok? && Admits(options, key)
    ensures DefaultPathRoot(options, escape) <= DefaultPath(key, escape).value
  {
    var path := DefaultPath(key, escape).value;
    var root := DefaultPathRoot(options, escape);
    if options.tier == "" {
      assert path == TierRoot + ("/" + key.tier + "/policy/" + escape(key.name));
    } else if options.name == "" {
      assert path == root + ("/" + escape(key.name));
    }
  }

  /**
   A tier's list prefix, followed by '/', covers the paths of that tier and of
   no other: for slash-free tiers it is a prefix of a key's path exactly when
   the key is in that tier.
   */
  lemma {:induction false} TierRootSelectsTier(options: PolicyListOptions, key: PolicyKey, escape: string -> string)
    requires IsSegment(options.tier) && options.name == ""
    requires DefaultPath(key, escape).Ok? && '/' !in key.tier
    ensures DefaultPathRoot(options, escape) + "/" <= DefaultPath(key, escape).value <==> key.tier == options.tier
  {
    var path := DefaultPath(key, escape).value;
    var root := DefaultPathRoot(options, escape);
    var head := TierRoot + "/";
    assert path == head + (key.tier + "/" + ("policy/" + escape(key.name)));
    assert root + "/" == head + (options.tier + "/" + "policy/");
    if root + "/" <= path {
      assert options.tier + "/" <= key.tier + "/" + ("policy/" + escape(key.name)) by {
        assert (root + "/")[|head|..] == options.tier + "/" + "policy/";
        assert path[|head|..] == key.tier + "/" + ("policy/" + escape(key.name));
      }
      DelimitedPrefixAgrees('/', options.tier, key.tier, "policy/" + escape(key.name));
    }
  }

  /**
   Every policy path in canonical form that a tier-only or empty filter
   accepts lies under that filter's list prefix followed by '/'.
   */
  lemma {:induction false} AcceptedPathsUnderListRoot(options: PolicyListOptions, path: string,
                                                     escape: string -> string, unescape: string -> string)
    requires options.name == "" && |path| > 0 && path[0] == '/'
    requires KeyFromDefaultPath(options, path, unescape).Some?
    ensures DefaultPathRoot(options, escape) + "/" <= path
  {
    ParsePolicyPathSound(path);
    var (tier, segment) := ParsePolicyPath(path).value;
    assert path[0] != PatternHead[0];
    assert path == "/" + PatternHead + tier + PatternMid + segment;
    PathLiterals();
    if options.tier == "" {
      ConcatRegroup(TierRoot + "/", tier, PatternMid, segment);
      ConcatAssoc(TierRoot, "/", tier + (PatternMid + segment));
    } else {
      var root := DefaultPathRoot(options, escape);
      assert root == TierRoot + "/" + tier + "/policy";
      ConcatAssoc(TierRoot + "/" + tier, "/policy", "/");
      assert path == root + "/" + segment;
    }
  }

  /**
   For tiers without a comma (tiers are validated names) the readable form of
   a key identifies the key.
   */
  lemma {:induction false} KeyStringInjective(a: PolicyKey, b: PolicyKey)
    requires ',' !in a.tier && ',' !in b.tier
    requires KeyString(a) == KeyString(b)
    ensures a == b
  {
    var head := "Policy(tier=";
    var s := KeyString(a);
    assert s == head + (a.tier + "," + (" name=" + a.name + ")"));
    assert s == head + (b.tier + "," + (" name=" + b.name + ")"));
    assert s[|head|..] == a.tier + "," + (" name=" + a.name + ")");
    assert s[|head|..] == b.tier + "," + (" name=" + b.name + ")");
    DelimitedPrefixAgrees(',', a.tier, b.tier, " name=" + b.name + ")");
    var tail := s[|head| + |a.tier| + 7..];
    assert tail == a.name + ")" && tail == b.name + ")";
    assert a.name == tail[..|tail| - 1] == b.name;
  }
}
