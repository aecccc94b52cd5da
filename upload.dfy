/** The state the upload task's closures share: the session fields of
    `requestConfig` and the `files` array of remote records, with the
    operations that update or read them. */
module Upload {
  import opened Js
  import opened Session
  import opened Inventory
  import opened Routing
  import opened Pages
  import opened Folders

  /** What `pushPage` sends for one stylesheet, in order: the page creation
      (only when the inventory has no page of that name), the tag fetch, and
      then, unless the task stopped at the missing-CSS-tag warning, the save
      with its payload and the publish. */
  datatype PagePlan = PagePlan(
    create: Option<PageCreate>,
    tagsUri: string,
    finish: Option<PageFinish>)

  /** The save and publish requests that end `pushPage`. */
  datatype PageFinish = PageFinish(saveUri: string, save: PageSave, publishUri: string)

  class UploadTask {
    const options: Options
    /** `requestConfig.query.sid` */
    var sid: Option<string>
    /** `requestConfig.headers.Cookie` */
    var cookie: Option<string>
    /** The remote records gathered from every listing of the run. */
    var files: seq<Record>

    constructor (options: Options)
      ensures this.options == options
      ensures sid == None && cookie == None && files == []
    {
      this.options := options;
      sid, cookie, files := None, None, [];
    }

    /** The success handler of `makeRequest`: each session field is taken
        from the response only while it is still unset. */
    method AdoptSession(r: Response)
      modifies this
      ensures sid == Adopt(old(sid), r.sid)
      ensures cookie == Adopt(old(cookie), r.setCookie)
      ensures Truthy(old(sid)) ==> sid == old(sid)
      ensures Truthy(old(cookie)) ==> cookie == old(cookie)
      ensures files == old(files)
    {
      if !Truthy(sid) && Truthy(r.sid) {
        sid := r.sid;
      }
      if !Truthy(cookie) && Truthy(r.setCookie) {
        cookie := r.setCookie;
      }
    }

    /** The handler `getFiles` attaches to a listing response: the listing it
        carries, if any, is appended to the records; the session is left
        alone. */
    method MergeListing(r: Response)
      modifies this
      ensures files == Merged(old(files), r)
      ensures Listing(r).None? ==> files == old(files)
      ensures Listing(r).Some? ==> files == old(files) + Listing(r).value
      ensures sid == old(sid) && cookie == old(cookie)
    {
      var listed := Listing(r);
      if listed.Some? {
        files := files + listed.value;
      }
    }

    /** `isExisting(name)`: the first record, by index, that answers to
        `name`, or nothing. */
    method Find(name: string) returns (found: Option<Record>)
      ensures found.None? <==> forall i | 0 <= i < |files| :: !Matches(files[i], name)
      ensures found == FirstMatch(files, name)
    {
      for i := 0 to |files|
        invariant forall j | 0 <= j < i :: !Matches(files[j], name)
      {
        if Truthy(files[i].fileName) && files[i].fileName.value == name {
          return Some(files[i]);
        }
        if Truthy(files[i].name) && files[i].name.value == name {
          return Some(files[i]);
        }
      }
      return None;
    }

    /** `pushFile(filePath, folderId)` up to the request it sends: the save
        endpoint of the record named like the file's base name, or the create
        endpoint when there is none, with the current session. */
    method PushFile(filePath: string, folderId: Option<string>) returns (req: UploadRequest)
      ensures req.uri == FileCreateUri <==> FirstMatch(files, Basename(filePath)).None?
      ensures FirstMatch(files, Basename(filePath)).Some? ==>
        req.uri == FileSavePrefix + FirstMatch(files, Basename(filePath)).value.id
      ensures req.name == Basename(filePath) && req.fileName == Basename(filePath)
      ensures req.folderId == folderId && req.nodeId == options.nodeId
      ensures req.sid == sid && req.cookie == cookie
      ensures req.localPath == filePath
    {
      var base := Basename(filePath);
      var existing := Find(base);
      var uri := FileCreateUri;
      if existing.Some? {
        uri := FileSavePrefix + existing.value.id;
        CreateIsNoSave(existing.value.id);
      }
      req := UploadRequest(uri, cookie, sid, base, folderId, options.nodeId, base, filePath);
    }

    /** `pushPage(fileName)`: `createdId` is the id of the page the create
        endpoint returns, `tags` the tags `getTags` returns and `content` the
        stylesheet text read from disk. `force` says whether `grunt.warn`
        lets the task go on (`--force`) or stops it; a page without a CSS tag
        is saved and published only in the first case. */
    method PushPage(fileName: string, createdId: string, tags: seq<Tag>, content: string, force: bool)
      returns (plan: PagePlan)
      ensures plan.create.None? <==> FirstMatch(files, Basename(fileName)).Some?
      ensures plan.create.Some? ==>
        plan.create.value == PageCreate(options.stylesFolderId, options.templateId, options.nodeId, "en")
      ensures plan.finish.None? <==> LastCss(tags).None? && !force
      ensures var found := FirstMatch(files, Basename(fileName));
        var id := if found.Some? then found.value.id else createdId;
        && plan.tagsUri == PageTagsPrefix + id
        && (plan.finish.Some? ==>
          && plan.finish.value.saveUri == PageSavePrefix + id
          && plan.finish.value.publishUri == PagePublishPrefix + id
          && plan.finish.value.save.id == id)
      ensures plan.finish.Some? ==>
        plan.finish.value.save.name == PageName(fileName) && plan.finish.value.save.fileName == fileName
      ensures plan.finish.Some? ==> plan.finish.value.save.tags == CssTagMap(LastCss(tags), content)
    {
      var existing := Find(Basename(fileName));
      var create: Option<PageCreate> := None;
      var id := createdId;
      if existing.Some? {
        id := existing.value.id;
      } else {
        create := Some(PageCreate(options.stylesFolderId, options.templateId, options.nodeId, "en"));
      }
      assert existing == FirstMatch(files, Basename(fileName));
      var css := SelectCssTag(tags);
      assert css == LastCss(tags);
      if css.None? && !force {
        return PagePlan(create, PageTagsPrefix + id, None);
      }
      var page := PageSave(id, Substring(fileName, 0, IndexOf(fileName, '.')), fileName, CssTagMap(css, content));
      plan := PagePlan(create, PageTagsPrefix + id, Some(PageFinish(PageSavePrefix + id, page, PagePublishPrefix + id)));
    }
  }

  /** The listing of the run below: the hidden entry is the only one dropped. */
  lemma HiddenEntrySkipped(x: string, y: string)
    requires x != "" && x[0] != '.' && y != "" && y[0] != '.'
    ensures Visible([".DS_Store", x, y]) == [x, y]
  {
    assert Hidden(".DS_Store") && !Hidden(x) && !Hidden(y);
    var l1, l2, l3 := [".DS_Store"], [".DS_Store", x], [".DS_Store", x, y];
    assert l1[..0] == [];
    assert Visible(l1) == [];
    assert l2[..1] == l1;
    assert Visible(l2) == [x];
    assert l3[..2] == l2;
  }

  /** With only `images` and `imagesFolderId` set, the login callback starts
      the images listing alone and raises no warning. */
  lemma ImagesOnlyPlan(path: string, folderId: string)
    requires path != "" && folderId != ""
    ensures PlanRun(true, Options(None, None, Some(path), None, None, None, Some(folderId), None, None, None))
      == Run(false, [Job(Images, ImagesListingPrefix + folderId)])
  {
    var opts := Options(None, None, Some(path), None, None, None, Some(folderId), None, None, None);
    assert Selected(opts, Images) && !Selected(opts, Scripts) && !Selected(opts, Fonts);
  }

  /** The listing of the run below: one record, named `y`, which `x` does
      not answer to. */
  lemma OneListedRecord(yId: string, x: string, y: string)
    requires x != "" && y != "" && x != y
    ensures FirstMatch([Record(yId, Some(y), None)], x).None?
    ensures FirstMatch([Record(yId, Some(y), None)], y) == Some(Record(yId, Some(y), None))
  {
    var s := [Record(yId, Some(y), None)];
    assert FirstMatchIndex(s, x).None?;
    assert FirstMatchIndex(s, y) == Some(0);
  }

  /** A run configured with only `images` and `imagesFolderId`: the local
      folder holds `.DS_Store`, `x` (new) and `y` (listed remotely with id
      `yId`). One listing job runs, the hidden entry is skipped, `x` goes to
      the create endpoint and `y` to the save endpoint of `yId`, both with
      the session of the login response rather than that of the listing. */
  method ImagesOnlyRun(path: string, folderId: string, x: string, y: string, yId: string, sid: string, cookie: string)
    returns (jobs: seq<Job>, dispatches: seq<Dispatch>, create: UploadRequest, update: UploadRequest)
    requires path != "" && folderId != "" && sid != "" && cookie != ""
    requires x != "" && x[0] != '.' && '/' !in x
    requires y != "" && y[0] != '.' && '/' !in y
    requires x != y
    ensures jobs == [Job(Images, ImagesListingPrefix + folderId)]
    ensures dispatches == [PushFile(NormalizeDir(path) + x, Some(folderId)), PushFile(NormalizeDir(path) + y, Some(folderId))]
    ensures create.uri == FileCreateUri && create.name == x
    ensures update.uri == FileSavePrefix + yId && update.name == y
    ensures create.sid == update.sid == Some(sid)
    ensures create.cookie == update.cookie == Some(cookie)
  {
    var opts := Options(None, None, Some(path), None, None, None, Some(folderId), None, None, None);
    ImagesOnlyPlan(path, folderId);
    var plan := PlanRun(true, opts);
    jobs := plan.jobs;

    var task := new UploadTask(opts);
    task.AdoptSession(Response(Some(sid), Some(cookie), None, None, None));
    var listing := Response(Some("other"), Some("other"), None, None, Some([Record(yId, Some(y), None)]));
    task.AdoptSession(listing);
    task.MergeListing(listing);

    var list := [".DS_Store", x, y];
    HiddenEntrySkipped(x, y);
    var out := HandleFolder(opts, Images, false, true, list);
    assert out.dir == NormalizeDir(path);
    var d0, d1 := out.dispatches[0], out.dispatches[1];
    assert d0 == PushFile(out.dir + x, Some(folderId));
    assert d1 == PushFile(out.dir + y, Some(folderId));
    dispatches := out.dispatches;
    assert dispatches == [d0, d1];
    BasenameOfEntry(out.dir, x);
    BasenameOfEntry(out.dir, y);
    assert task.files == [Record(yId, Some(y), None)];
    OneListedRecord(yId, x, y);
    assert task.sid == Some(sid) && task.cookie == Some(cookie);
    create := task.PushFile(d0.path, d0.folderId);
    update := task.PushFile(d1.path, d1.folderId);
  }
}
