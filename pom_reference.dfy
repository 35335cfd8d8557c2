/**
 * Lookups into the project's pom: which element path each kind of reference
 * asks for, and the XML namespace taken from the root element's tag.
 *
 * ElementTree writes a namespaced tag as `{uri}local`; the step recovers the
 * uri with the regular expression `{(.*?)}` and uses the first match, or the
 * empty string when there is none. In that pattern `.` matches any character
 * except a newline and `*?` is lazy, so a match begun at a `{` ends at the
 * first `}` after it, and fails if a newline comes first.
 */
module PomReference {
  import opened Wrappers

  /** The two references the step looks up in the pom. */
  datatype Reference = SurefirePlugin | ReportsDirectory

  /** The surefire plugin's entry under build/plugins, every step under the `maven` prefix. */
  const SurefirePluginPath :=
    "maven:build/maven:plugins/maven:plugin/[maven:artifactId=\"maven-surefire-plugin\"]/"

  /**
   * The element path queried for each reference: the reports-directory
   * override is looked up inside the surefire plugin's own configuration.
   */
  function ElementPath(reference: Reference): (path: string)
    ensures SurefirePluginPath <= path
    ensures reference == SurefirePlugin <==> |path| == |SurefirePluginPath|
    ensures reference == ReportsDirectory ==>
              path[|SurefirePluginPath|..] == "maven:configuration/maven:reportsDirectory"
  {
    match reference
    case SurefirePlugin => SurefirePluginPath
    case ReportsDirectory => SurefirePluginPath + "maven:configuration/maven:reportsDirectory"
  }

  /** No character in `tag[lo..hi]` stops the lazy `.*?`: neither a `}` nor a newline. */
  ghost predicate LazyBody(tag: string, lo: int, hi: int)
    requires 0 <= lo <= hi <= |tag|
  {
    forall m :: lo <= m < hi ==> tag[m] != '}' && tag[m] != '\n'
  }

  /** The pattern `{(.*?)}` matches `tag[i..j + 1]`. */
  ghost predicate MatchAt(tag: string, i: int, j: int)
  {
    0 <= i < j < |tag| && tag[i] == '{' && tag[j] == '}' && LazyBody(tag, i + 1, j)
  }

  /** `tag[i..j + 1]` is the leftmost match, the first one `findall` reports. */
  ghost predicate FirstMatch(tag: string, i: int, j: int)
  {
    MatchAt(tag, i, j) && forall i', j' :: MatchAt(tag, i', j') ==> i <= i'
  }

  /** The pattern matches nowhere in `tag`. */
  ghost predicate NoMatch(tag: string)
  {
    forall i, j :: !MatchAt(tag, i, j)
  }

  /** Where the lazy body begun at `k` is closed: the first `}` from `k` on, unless a newline comes first. */
  function CloseFrom(tag: string, k: nat): (j: Option<nat>)
    requires k <= |tag|
    ensures j.Some? ==> k <= j.value < |tag| && tag[j.value] == '}' && LazyBody(tag, k, j.value)
    ensures j.None? ==> forall j' :: k <= j' < |tag| && tag[j'] == '}' ==> !LazyBody(tag, k, j')
    decreases |tag| - k
  {
    if k == |tag| then None
    else if tag[k] == '}' then Some(k)
    else if tag[k] == '\n' then None
    else CloseFrom(tag, k + 1)
  }

  /** The regular-expression scan from position `i`: the leftmost match starting at or after `i`. */
  function SearchFrom(tag: string, i: nat): (m: Option<(nat, nat)>)
    requires i <= |tag|
    ensures m.Some? ==> i <= m.value.0 && MatchAt(tag, m.value.0, m.value.1)
    ensures m.Some? ==> forall i', j' :: i <= i' < m.value.0 ==> !MatchAt(tag, i', j')
    ensures m.None? ==> forall i', j' :: i <= i' ==> !MatchAt(tag, i', j')
    decreases |tag| - i
  {
    if i == |tag| then None
    else if tag[i] == '{' && CloseFrom(tag, i + 1).Some? then Some((i, CloseFrom(tag, i + 1).value))
    else SearchFrom(tag, i + 1)
  }

  /**
   * The namespace of a root tag: the text captured by the first match of
   * `{(.*?)}`, or "" when the pattern does not match.
   */
  function ExtractNamespace(tag: string): (ns: string)
    ensures (exists i, j :: FirstMatch(tag, i, j) && ns == tag[i + 1..j]) || (NoMatch(tag) && ns == "")
  {
    match SearchFrom(tag, 0)
    case None => ""
    case Some((i, j)) =>
      assert FirstMatch(tag, i, j);
      tag[i + 1..j]
  }

  /** A match begun at a given `{` has only one possible end. */
  lemma MatchEndIsUnique(tag: string, i: int, j: int, j': int)
    requires MatchAt(tag, i, j) && MatchAt(tag, i, j')
    ensures j == j'
  {
  }

  /**
   * For a tag without newlines, the namespace is the text between the first `{` and the first `}` after it.
   */
  lemma {:induction false} NamespaceBetweenFirstBraces(tag: string, i: nat, j: nat)
    requires '\n' !in tag
    requires i < j < |tag| && tag[i] == '{' && tag[j] == '}'
    requires forall k :: 0 <= k < i ==> tag[k] != '{'
    requires forall k :: i < k < j ==> tag[k] != '}'
    ensures ExtractNamespace(tag) == tag[i + 1..j]
  {
    assert MatchAt(tag, i, j);
    var ns := ExtractNamespace(tag);
    var i0, j0 :| FirstMatch(tag, i0, j0) && ns == tag[i0 + 1..j0];
    assert i0 == i;
    MatchEndIsUnique(tag, i, j, j0);
  }

  /** Without a `}` after some `{` the namespace is empty. */
  lemma NamespaceEmptyWithoutBracePair(tag: string)
    requires forall i, j :: 0 <= i < j < |tag| && tag[i] == '{' ==> tag[j] != '}'
    ensures ExtractNamespace(tag) == ""
  {
  }

  /**
   * ElementTree writes a namespaced tag as `{uri}local`; the extraction gives
   * back `uri` whenever the uri itself holds no `}` and no newline, whatever
   * the local name is.
   */
  lemma {:induction false} NamespaceOfQualifiedTag(uri: string, local: string)
    requires '}' !in uri && '\n' !in uri
    ensures ExtractNamespace("{" + uri + "}" + local) == uri
  {
    var tag := "{" + uri + "}" + local;
    var close := |uri| + 1;
    assert tag[1..close] == uri;
    assert MatchAt(tag, 0, close);
    var ns := ExtractNamespace(tag);
    var i, j :| FirstMatch(tag, i, j) && ns == tag[i + 1..j];
    MatchEndIsUnique(tag, 0, close, j);
  }

  /** A newline inside the braces defeats the first pair; the scan goes on to the next `{`. */
  lemma NewlineStopsMatch()
    ensures ExtractNamespace("{a\n}{b}") == "b"
  {
  }
}
