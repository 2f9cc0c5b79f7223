// String rules shared by several files of the client: ASCII lower-casing,
// `String.prototype.includes`, `split(c).pop()` and the extension-stripping
// replace `name.replace(/\.[^/.]+$/, '')` used wherever a job name is
// derived from a file name.

module Text {

  function LowerChar(c: char): char {
    if 'A' <= c <= 'Z' then (c as int + 32) as char else c
  }

  /** `toLowerCase`, restricted to the ASCII letters. */
  function ToLower(s: string): (r: string)
    ensures |r| == |s|
    ensures forall i :: 0 <= i < |s| ==> r[i] == LowerChar(s[i])
  {
    if s == [] then [] else [LowerChar(s[0])] + ToLower(s[1..])
  }

  lemma {:induction false} ToLowerIdempotent(s: string)
    ensures ToLower(ToLower(s)) == ToLower(s)
  {
    var once := ToLower(s);
    var twice := ToLower(once);
    assert forall i :: 0 <= i < |s| ==> twice[i] == LowerChar(LowerChar(s[i])) == once[i];
  }

  /** `needle` occurs in `hay` starting at index `i`. */
  predicate OccursAt(hay: string, needle: string, i: int) {
    0 <= i && i + |needle| <= |hay| && hay[i..i + |needle|] == needle
  }

  /** `hay.includes(needle)`. */
  predicate Contains(hay: string, needle: string) {
    exists i | 0 <= i <= |hay| :: OccursAt(hay, needle, i)
  }

  lemma ContainsEmpty(hay: string)
    ensures Contains(hay, "")
  {
    assert OccursAt(hay, "", 0);
  }

  /** `s.lastIndexOf(c)`: the index of the last `c` in `s`, or -1. */
  function LastIndexOf(s: string, c: char): (k: int)
    ensures -1 <= k < |s|
    ensures k >= 0 ==> s[k] == c
    ensures forall j :: k < j < |s| ==> s[j] != c
  {
    if s == [] then -1
    else if s[|s| - 1] == c then |s| - 1
    else LastIndexOf(s[..|s| - 1], c)
  }

  /** `s.split(c).pop()`: the text after the last `c`, or all of `s` when it holds none. */
  function AfterLast(s: string, c: char): (r: string)
    ensures c !in r
    ensures |r| <= |s| && r == s[|s| - |r|..]
    ensures r == s || s[|s| - |r| - 1] == c
  {
    var k := LastIndexOf(s, c);
    if k < 0 then s else s[k + 1..]
  }

  /**
   * The regular expression `/\.[^/.]+$/` matches at index `k` of `name`:
   * a '.' followed, up to the end of the string, by at least one character
   * that is neither '/' nor '.'.
   */
  predicate ExtensionAt(name: string, k: int) {
    0 <= k && k + 1 < |name| && name[k] == '.' &&
    forall j :: k < j < |name| ==> name[j] != '/' && name[j] != '.'
  }

  /** `name.replace(/\.[^/.]+$/, '')`. */
  function StripExtension(name: string): (r: string)
    ensures |r| <= |name| && r == name[..|r|]
  {
    var k := LastIndexOf(name, '.');
    if k >= 0 && k + 1 < |name| && '/' !in name[k + 1..] then name[..k] else name
  }

  /** The regular expression matches at most once: only the last '.' can start a match. */
  lemma ExtensionAtUnique(name: string, k: int, m: int)
    requires ExtensionAt(name, k) && ExtensionAt(name, m)
    ensures k == m
  {
  }

  /**
   * StripExtension is the replace the regular expression describes: it cuts
   * `name` at the match when there is one and leaves it whole otherwise.
   */
  lemma StripExtensionMatchesRegex(name: string)
    ensures forall k :: ExtensionAt(name, k) ==> StripExtension(name) == name[..k]
    ensures (forall k :: !ExtensionAt(name, k)) ==> StripExtension(name) == name
  {
    var k := LastIndexOf(name, '.');
    if k >= 0 && k + 1 < |name| && '/' !in name[k + 1..] {
      forall j | k < j < |name| ensures name[j] != '/' {
        assert name[j] == name[k + 1..][j - k - 1];
      }
      assert ExtensionAt(name, k);
      forall m | ExtensionAt(name, m) ensures StripExtension(name) == name[..m] {
        ExtensionAtUnique(name, k, m);
      }
    } else {
      forall m ensures !ExtensionAt(name, m) {
        if 0 <= m < k {
          assert name[k] == '.';
        } else if m > k {
          assert m >= |name| || name[m] != '.';
        } else if k >= 0 && k + 1 < |name| {
          var j :| 0 <= j < |name[k + 1..]| && name[k + 1..][j] == '/';
          assert name[k + 1 + j] == '/';
        }
      }
    }
  }

  lemma StripExtensionExamples()
    ensures StripExtension("a.tar.gz") == "a.tar"
    ensures StripExtension(".png") == ""
  {
    StripExtensionMatchesRegex("a.tar.gz");
    assert ExtensionAt("a.tar.gz", 5);
    StripExtensionMatchesRegex(".png");
    assert ExtensionAt(".png", 0);
  }

  lemma StripExtensionExamplesUnchanged()
    ensures StripExtension("noext") == "noext"
    ensures StripExtension("dir.v1/file") == "dir.v1/file"
    ensures StripExtension("trailing.") == "trailing."
  {
    assert '.' !in "noext";
    assert LastIndexOf("noext", '.') == -1;
    var path := "dir.v1/file";
    assert path[3] == '.' && path[4..] == "v1/file" && '.' !in "v1/file";
    assert "dir.v1/file"[4..][2] == '/';
    assert LastIndexOf("trailing.", '.') == 8;
  }
}
