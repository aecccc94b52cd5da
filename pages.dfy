/** Page Content Merger: choosing the CSS tag of a page, writing the
    stylesheet into it, and the page identity sent to the save endpoint. */
module Pages {
  import opened Js

  /** A page tag as `getTags` returns it; `text` is
      `properties.text.stringValue`. */
  datatype Tag = Tag(name: string, active: bool, text: string)

  /** The page-creation payload of `pushPage` for a file with no page yet. */
  datatype PageCreate = PageCreate(
    folderId: Option<string>,
    templateId: Option<string>,
    nodeId: Option<string>,
    language: string)

  /** The `page` object posted to the save endpoint. */
  datatype PageSave = PageSave(id: string, name: string, fileName: string, tags: map<string, Tag>)

  /** `el.name.match(/_css/)`. */
  predicate IsCssTag(t: Tag) {
    Contains(t.name, "_css")
  }

  /** The index of the last CSS tag: the one `forEach` leaves in `cssTag`. */
  function LastCssIndex(tags: seq<Tag>): (r: Option<nat>)
    ensures r.None? <==> forall i | 0 <= i < |tags| :: !IsCssTag(tags[i])
    ensures r.Some? ==> r.value < |tags| && IsCssTag(tags[r.value])
    ensures r.Some? ==> forall j | r.value < j < |tags| :: !IsCssTag(tags[j])
  {
    if tags == [] then None
    else if IsCssTag(tags[|tags| - 1]) then Some(|tags| - 1)
    else
      var r := LastCssIndex(tags[..|tags| - 1]);
      assert forall i | 0 <= i < |tags| - 1 :: tags[i] == tags[..|tags| - 1][i];
      r
  }

  function LastCss(tags: seq<Tag>): Option<Tag> {
    var k := LastCssIndex(tags);
    if k.None? then None else Some(tags[k.value])
  }

  /** The `forEach` of `pushPage` over the fetched tags: every tag whose name
      contains `_css` overwrites the candidate, so the last one is kept. */
  method SelectCssTag(tags: seq<Tag>) returns (css: Option<Tag>)
    ensures css.None? <==> forall i | 0 <= i < |tags| :: !IsCssTag(tags[i])
    ensures css == LastCss(tags)
  {
    css := None;
    for i := 0 to |tags|
      invariant css == LastCss(tags[..i])
    {
      assert tags[..i + 1][..i] == tags[..i];
      if IsCssTag(tags[i]) {
        css := Some(tags[i]);
      }
    }
    assert tags[..|tags|] == tags;
  }

  /** The tag map of the save payload: empty when the page has no CSS tag;
      otherwise exactly the CSS tag, under its own name, holding the
      stylesheet text and marked active, its name unchanged. */
  function CssTagMap(css: Option<Tag>, content: string): (m: map<string, Tag>)
    ensures css.None? <==> m == map[]
    ensures css.Some? ==> m.Keys == {css.value.name}
    ensures css.Some? ==> m[css.value.name] == Tag(css.value.name, true, content)
  {
    if css.None? then map[]
    else
      var m := map[css.value.name := css.value.(text := content, active := true)];
      assert css.value.name in m;
      m
  }

  /** `fileName.substring(0, fileName.indexOf("."))`. */
  function PageName(fileName: string): (name: string)
    ensures |name| <= |fileName| && name == fileName[..|name|]
    ensures '.' !in name
    ensures '.' in fileName ==> fileName[|name|] == '.'
  {
    Substring(fileName, 0, IndexOf(fileName, '.'))
  }

  /** The page name is the part of the file name before its first `.`, and
      the empty string when the file name has no `.` (`substring(0, -1)`). */
  lemma PageNameIsStem(fileName: string)
    ensures '.' !in fileName ==> PageName(fileName) == ""
    ensures '.' in fileName ==>
      var k := IndexOf(fileName, '.');
      PageName(fileName) == fileName[..k] && fileName[k] == '.'
    ensures '.' !in PageName(fileName)
  {
  }
}
