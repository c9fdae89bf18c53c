/** The PHP string built-ins the hero-image module relies on, written out on `seq<char>`:
    `empty()` on a string, `trim($s, '/')`, `strpos(...) === false`, and the ASCII case
    folding of a PCRE pattern compiled with the `i` flag. */
module PhpStrings {

  /** PHP `empty()` applied to a string: true for "" and for "0". */
  predicate IsEmpty(s: string) {
    s == "" || s == "0"
  }

  /** `ltrim($s, '/')`: drops every leading '/'. */
  function TrimLeadingSlashes(s: string): (r: string)
    ensures |r| <= |s| && r == s[|s| - |r|..]
    ensures forall i :: 0 <= i < |s| - |r| ==> s[i] == '/'
    ensures r != [] ==> r[0] != '/'
    decreases |s|
  {
    if |s| > 0 && s[0] == '/' then TrimLeadingSlashes(s[1..]) else s
  }

  /** `rtrim($s, '/')`: drops every trailing '/'. */
  function TrimTrailingSlashes(s: string): (r: string)
    ensures |r| <= |s| && r == s[..|r|]
    ensures forall i :: |r| <= i < |s| ==> s[i] == '/'
    ensures r != [] ==> r[|r| - 1] != '/'
    decreases |s|
  {
    if |s| > 0 && s[|s| - 1] == '/' then TrimTrailingSlashes(s[..|s| - 1]) else s
  }

  /** `trim($s, '/')`: a contiguous slice of `s` that neither starts nor ends with '/',
      obtained by removing only slashes. */
  function TrimSlashes(s: string): (r: string)
    ensures |r| <= |s|
    ensures r != [] ==> r[0] != '/' && r[|r| - 1] != '/'
    ensures exists k :: IsSlashPaddingOf(s, k, r)
  {
    var l := TrimLeadingSlashes(s);
    var r := TrimTrailingSlashes(l);
    assert IsSlashPaddingOf(s, |s| - |l|, r);
    r
  }

  /** `s` is `r` with only slashes before it (the first `k` characters) and after it. */
  predicate IsSlashPaddingOf(s: string, k: int, r: string) {
    0 <= k && k + |r| <= |s| && r == s[k..k + |r|]
    && (forall i :: 0 <= i < k ==> s[i] == '/')
    && (forall i :: k + |r| <= i < |s| ==> s[i] == '/')
  }

  /** Trimming a string that has no slash at either end gives it back. */
  lemma TrimSlashesKeepsUnslashed(s: string)
    requires s != [] ==> s[0] != '/' && s[|s| - 1] != '/'
    ensures TrimSlashes(s) == s
  {
    assert TrimLeadingSlashes(s) == s;
    assert TrimTrailingSlashes(s) == s;
  }

  /** Trimming twice is trimming once. */
  lemma TrimSlashesIdempotent(s: string)
    ensures TrimSlashes(TrimSlashes(s)) == TrimSlashes(s)
  {
    TrimSlashesKeepsUnslashed(TrimSlashes(s));
  }

  /** Slashes added at either end are all removed: `trim` undoes padding with '/'. */
  lemma {:induction false} TrimSlashesRemovesPadding(core: string, left: nat, right: nat)
    requires core != [] ==> core[0] != '/' && core[|core| - 1] != '/'
    ensures TrimSlashes(Slashes(left) + core + Slashes(right)) == core
  {
    var s := Slashes(left) + core + Slashes(right);
    var l := TrimLeadingSlashes(s);
    if core == [] {
      assert forall i :: 0 <= i < |s| ==> s[i] == '/';
      assert l == [];
    } else {
      assert s[left] == core[0];
      assert |l| == |core| + right;
      assert l == core + Slashes(right);
      assert l[|core| - 1] == core[|core| - 1];
      var r := TrimTrailingSlashes(l);
      assert |r| == |core|;
    }
  }

  /** A run of `n` slashes. */
  function Slashes(n: nat): (r: string)
    ensures |r| == n && forall i :: 0 <= i < n ==> r[i] == '/'
  {
    if n == 0 then "" else "/" + Slashes(n - 1)
  }

  /** `strtolower` restricted to ASCII, the folding PCRE applies under the `i` flag
      when no locale and no UTF-8 mode is in effect. */
  function ToLowerAscii(c: char): (r: char)
    ensures 'A' <= c <= 'Z' ==> r as int == c as int + 32 && 'a' <= r <= 'z'
    ensures !('A' <= c <= 'Z') ==> r == c
  {
    if 'A' <= c <= 'Z' then (c as int + ('a' as int - 'A' as int)) as char else c
  }

  /** Equality up to ASCII case. */
  predicate EqualsIgnoreCase(a: string, b: string) {
    |a| == |b| && forall i :: 0 <= i < |a| ==> ToLowerAscii(a[i]) == ToLowerAscii(b[i])
  }

  /** `s` begins with `prefix`, up to ASCII case (the anchored match of `^prefix` with flag `i`). */
  predicate StartsWithIgnoreCase(s: string, prefix: string) {
    |prefix| <= |s| && EqualsIgnoreCase(s[..|prefix|], prefix)
  }

  /** `needle` occurs in `s` at index `i`. */
  predicate OccursAt(s: string, needle: string, i: int) {
    0 <= i && i + |needle| <= |s| && s[i..i + |needle|] == needle
  }

  /** `strpos($s, $needle) !== false`. */
  predicate Contains(s: string, needle: string) {
    exists i | 0 <= i <= |s| :: OccursAt(s, needle, i)
  }
}
