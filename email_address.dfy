/**
 * The user-name check of the auth handler: the regular expression
 * `(.+)@(.+\..+)`, matched unanchored with leftmost-first semantics, written
 * out as string functions. `.` matches any character except '\n', so a match
 * lies within one line; the leftmost match starts at the beginning of the
 * first line that has one; the greedy first group ends at the last '@' of that
 * line that can still be followed by `.+\..+`; the second group runs from that
 * '@' to the end of the line.
 */
module EmailAddress {
  import opened Wrappers

  /** `t` holds a '.' with at least one character on each side (`.+\..+` on one line). */
  predicate InnerDot(t: string) {
    exists j :: 0 < j < |t| - 1 && t[j] == '.'
  }

  /** On a line `t` (no '\n'), index `i` is an '@' the pattern can split at. */
  predicate SplitsAt(t: string, i: int) {
    0 < i < |t| && t[i] == '@' && InnerDot(t[i + 1..])
  }

  /** The last index below `k` at which line `t` splits, if any. */
  function LastSplit(t: string, k: nat): (r: Option<nat>)
    requires k <= |t|
    ensures r.Some? ==> r.value < k && SplitsAt(t, r.value)
    ensures forall i :: (if r.Some? then r.value < i else 0 <= i) && i < k ==> !SplitsAt(t, i)
    decreases k
  {
    if k == 0 then None
    else if SplitsAt(t, k - 1) then Some(k - 1)
    else LastSplit(t, k - 1)
  }

  /** The length of the first line of `s`: the index of its first '\n', or |s|. */
  function LineEnd(s: string): (e: nat)
    ensures e <= |s| && (e < |s| ==> s[e] == '\n')
    ensures forall k :: 0 <= k < e ==> s[k] != '\n'
    decreases |s|
  {
    if s == [] || s[0] == '\n' then 0 else 1 + LineEnd(s[1..])
  }

  /**
   * `re.FindStringSubmatch(s)`: no groups when nothing matches, otherwise the
   * whole match, the name before the '@' and the domain after it.
   */
  function FindSubmatch(s: string): (groups: seq<string>)
    ensures groups == [] || |groups| == 3
    ensures |groups| == 3 ==>
      && groups[0] == groups[1] + "@" + groups[2]
      && groups[1] != ""
      && InnerDot(groups[2])
      && '\n' !in groups[0]
    decreases |s|
  {
    var e := LineEnd(s);
    var line := s[..e];
    match LastSplit(line, |line|)
    case Some(i) =>
      assert line == line[..i] + "@" + line[i + 1..];
      [line, line[..i], line[i + 1..]]
    case None =>
      if e == |s| then [] else FindSubmatch(s[e + 1..])
  }

  /** `re.Match(s)`. */
  predicate Matches(s: string) {
    FindSubmatch(s) != []
  }

  /**
   * On a one-line user name the pattern matches exactly when some '@' after the
   * first character is followed by a '.' with a character on each side, and the
   * domain is everything after the last such '@'.
   */
  lemma OneLine(s: string)
    requires '\n' !in s
    ensures !Matches(s) <==> forall i :: !SplitsAt(s, i)
    ensures Matches(s) ==> exists i ::
      && SplitsAt(s, i)
      && FindSubmatch(s)[2] == s[i + 1..]
      && forall k :: i < k ==> !SplitsAt(s, k)
  {
    assert LineEnd(s) == |s|;
    assert s[..|s|] == s;
  }

  /** A line in which the pattern cannot split is skipped: matching goes on after its '\n'. */
  lemma SkipsLineWithoutSplit(line: string, rest: string)
    requires '\n' !in line
    requires forall i :: !SplitsAt(line, i)
    ensures FindSubmatch(line + "\n" + rest) == FindSubmatch(rest)
  {
    var s := line + "\n" + rest;
    assert s[|line|] == '\n';
    assert LineEnd(s) == |line|;
    assert s[..|line|] == line;
    assert s[|line| + 1..] == rest;
  }

  /** The first line in which the pattern can split decides the match; later lines are ignored. */
  lemma FirstSplitLineWins(line: string, rest: string)
    requires '\n' !in line
    requires exists i :: SplitsAt(line, i)
    ensures FindSubmatch(line + "\n" + rest) == FindSubmatch(line)
  {
    var s := line + "\n" + rest;
    assert s[|line|] == '\n';
    assert LineEnd(s) == |line|;
    assert LineEnd(line) == |line|;
    assert s[..|line|] == line == line[..|line|];
  }
}
