/** Remote Inventory: the records of existing remote files and pages, as
    listing responses deliver them, and the first-match lookup by name that
    decides between creating and updating. */
module Inventory {
  import opened Js

  /** One remote entry: binary files carry `fileName`, pages `name`; the
      lookup accepts either. */
  datatype Record = Record(id: string, fileName: Option<string>, name: Option<string>)

  /** The parts of a successful response the task reads: `sid` in the body,
      the `set-cookie` header, and the three listing arrays. A present array
      is truthy in JavaScript even when it is empty. Node delivers
      `set-cookie` as an array of strings, truthy whenever present; here it
      is one string, and `Some("")` stands for a header that is absent. */
  datatype Response = Response(
    sid: Option<string>,
    setCookie: Option<string>,
    files: Option<seq<Record>>,
    pages: Option<seq<Record>>,
    images: Option<seq<Record>>)

  /** `data.files || data.pages || data.images`: the listing a response
      carries, by priority files, then pages, then images. */
  function Listing(r: Response): (l: Option<seq<Record>>)
    ensures l.None? <==> r.files.None? && r.pages.None? && r.images.None?
    ensures r.files.Some? ==> l == r.files
    ensures r.files.None? && r.pages.Some? ==> l == r.pages
    ensures r.files.None? && r.pages.None? ==> l == r.images
  {
    if r.files.Some? then r.files else if r.pages.Some? then r.pages else r.images
  }

  /** The cache after a listing response: the listing, if any, appended. */
  function Merged(cache: seq<Record>, r: Response): (c: seq<Record>)
    ensures |cache| <= |c| && c[..|cache|] == cache
    ensures Listing(r).None? ==> c == cache
    ensures Listing(r).Some? ==> c[|cache|..] == Listing(r).value
  {
    if Listing(r).Some? then cache + Listing(r).value else cache
  }

  /** A record answers to `name` when its truthy `fileName` or its truthy
      `name` equals it. */
  predicate Matches(rec: Record, name: string)
    ensures Matches(rec, name) <==> name != "" && (rec.fileName == Some(name) || rec.name == Some(name))
  {
    (Truthy(rec.fileName) && rec.fileName.value == name)
    || (Truthy(rec.name) && rec.name.value == name)
  }

  /** The index of the first record that answers to `name`. */
  function FirstMatchIndex(s: seq<Record>, name: string): (r: Option<nat>)
    ensures r.None? <==> forall i | 0 <= i < |s| :: !Matches(s[i], name)
    ensures r.Some? ==> r.value < |s| && Matches(s[r.value], name)
    ensures r.Some? ==> forall j | 0 <= j < r.value :: !Matches(s[j], name)
  {
    if s == [] then None
    else if Matches(s[0], name) then Some(0)
    else
      var k := FirstMatchIndex(s[1..], name);
      assert forall i | 1 <= i < |s| :: s[i] == s[1..][i - 1];
      if k.None? then None else Some(k.value + 1)
  }

  /** The first record that answers to `name`, if any. */
  function FirstMatch(s: seq<Record>, name: string): (r: Option<Record>)
    ensures r.None? <==> forall i | 0 <= i < |s| :: !Matches(s[i], name)
    ensures r.Some? ==> Matches(r.value, name) && r.value in s
    ensures r.Some? ==> exists k | 0 <= k < |s| :: s[k] == r.value && forall j | 0 <= j < k :: !Matches(s[j], name)
  {
    var k := FirstMatchIndex(s, name);
    if k.None? then None
    else
      var r := Some(s[k.value]);
      assert s[k.value] == r.value;
      r
  }

  /** Appending records never changes the answer for a name already found;
      for a name not found, the answer is the first match among the appended
      records, shifted past the old ones. */
  lemma {:induction false} FirstMatchIndexAppend(s: seq<Record>, t: seq<Record>, name: string)
    ensures FirstMatchIndex(s, name).Some? ==> FirstMatchIndex(s + t, name) == FirstMatchIndex(s, name)
    ensures FirstMatchIndex(s, name).None? && FirstMatchIndex(t, name).None? ==> FirstMatchIndex(s + t, name).None?
    ensures FirstMatchIndex(s, name).None? && FirstMatchIndex(t, name).Some? ==>
      FirstMatchIndex(s + t, name) == Some(|s| + FirstMatchIndex(t, name).value)
  {
    if s == [] {
      assert s + t == t;
    } else if !Matches(s[0], name) {
      assert (s + t)[0] == s[0];
      assert (s + t)[1..] == s[1..] + t;
      FirstMatchIndexAppend(s[1..], t, name);
    } else {
      assert (s + t)[0] == s[0];
    }
  }

  /** Merging a listing never reroutes a name the cache already answers. */
  lemma MergeKeepsFound(cache: seq<Record>, r: Response, name: string)
    requires FirstMatch(cache, name).Some?
    ensures FirstMatch(Merged(cache, r), name) == FirstMatch(cache, name)
  {
  }
}
