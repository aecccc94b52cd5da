/** The few JavaScript and Node.js behaviours the upload task relies on:
    values that may be absent or falsy, `String.prototype.indexOf`,
    `String.prototype.substring`, a regular-expression test for a literal
    infix, and `path.basename` on posix paths. */
module Js {

  datatype Option<T> = None | Some(value: T)

  /** A string-valued field read with JavaScript truthiness: `null`,
      `undefined` and `""` are all falsy, every other string is truthy. */
  predicate Truthy(o: Option<string>) {
    o.Some? && o.value != ""
  }

  /** `s.indexOf(c)` for a one-character search string: the index of the
      first occurrence of `c`, or -1 when there is none. */
  function IndexOf(s: string, c: char): (r: int)
    ensures r == -1 <==> c !in s
    ensures r != -1 ==> 0 <= r < |s| && s[r] == c && c !in s[..r]
  {
    if s == [] then -1
    else if s[0] == c then 0
    else
      var k := IndexOf(s[1..], c);
      if k == -1 then -1
      else
        assert s[..k + 1] == [s[0]] + s[1..][..k];
        k + 1
  }

  /** The clamping `substring` applies to each bound: below 0 becomes 0,
      above the length becomes the length. */
  function Clamp(i: int, n: nat): (r: nat)
    ensures r <= n
    ensures 0 <= i <= n ==> r == i
  {
    if i < 0 then 0 else if i > n then n else i
  }

  /** `s.substring(start, end)`: both bounds clamped to `[0, |s|]`, and
      swapped when the first exceeds the second. */
  function Substring(s: string, start: int, end: int): string {
    var a, b := Clamp(start, |s|), Clamp(end, |s|);
    if a <= b then s[a..b] else s[b..a]
  }

  predicate OccursAt(s: string, p: string, i: nat) {
    i + |p| <= |s| && s[i..i + |p|] == p
  }

  /** `s.match(/p/)` is truthy, for a pattern `p` made of literal
      characters only: `p` occurs somewhere in `s`. */
  predicate Contains(s: string, p: string) {
    exists i: nat | i <= |s| - |p| :: OccursAt(s, p, i)
  }

  predicate EndsWithSlash(s: string) {
    |s| > 0 && s[|s| - 1] == '/'
  }

  /** `path.basename(p)` for a posix path that does not end in `/`: the
      longest suffix of `p` without a `/`. */
  function Basename(p: string): (b: string)
    ensures '/' !in b
    ensures |b| <= |p| && p[|p| - |b|..] == b
    ensures |b| < |p| ==> p[|p| - |b| - 1] == '/'
  {
    if p == [] then []
    else if p[|p| - 1] == '/' then []
    else
      var init := p[..|p| - 1];
      var b := Basename(init) + [p[|p| - 1]];
      assert p[|p| - |b|..] == init[|init| - |b| + 1..] + [p[|p| - 1]];
      b
  }

  /** The base name of `dir + entry`, for a directory that ends in `/`
      and an entry that holds no `/` (a name as `fs.readdir` lists it), is
      the entry itself. */
  lemma {:induction false} BasenameOfEntry(dir: string, entry: string)
    requires EndsWithSlash(dir)
    requires '/' !in entry
    ensures Basename(dir + entry) == entry
  {
    if entry != [] {
      var init := entry[..|entry| - 1];
      assert (dir + entry)[..|dir + entry| - 1] == dir + init;
      assert '/' !in init by {
        forall i | 0 <= i < |init| ensures init[i] != '/' {
          assert init[i] == entry[i];
        }
      }
      BasenameOfEntry(dir, init);
      assert entry == init + [entry[|entry| - 1]];
    }
  }
}
