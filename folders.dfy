/** Folder Orchestrator and Run Coordinator: which asset folders run, how a
    folder path is normalised, which directory entries are dispatched, and
    where each goes. */
module Folders {
  import opened Js
  import opened Routing

  datatype Folder = Images | Scripts | Fonts | Styles

  /** The task options that the decisions read; every one defaults to
      `null` except the prompts and the host, which are not modelled. */
  datatype Options = Options(
    nodeId: Option<string>,
    templateId: Option<string>,
    images: Option<string>,
    scripts: Option<string>,
    fonts: Option<string>,
    styles: Option<string>,
    imagesFolderId: Option<string>,
    scriptsFolderId: Option<string>,
    fontsFolderId: Option<string>,
    stylesFolderId: Option<string>)

  /** `options[folder]`, the local path of a folder. */
  function PathOf(opts: Options, f: Folder): Option<string> {
    match f
    case Images => opts.images
    case Scripts => opts.scripts
    case Fonts => opts.fonts
    case Styles => opts.styles
  }

  /** `options[folder + "FolderId"]`, the remote folder of a folder. */
  function FolderIdOf(opts: Options, f: Folder): Option<string> {
    match f
    case Images => opts.imagesFolderId
    case Scripts => opts.scriptsFolderId
    case Fonts => opts.fontsFolderId
    case Styles => opts.stylesFolderId
  }

  /** The local path with a trailing `/`, added when `/.*\/$/` does not match. */
  function NormalizeDir(p: string): (r: string)
    ensures EndsWithSlash(r)
    ensures EndsWithSlash(p) ==> r == p
    ensures !EndsWithSlash(p) ==> r == p + "/"
  {
    if EndsWithSlash(p) then p else p + "/"
  }

  /** Normalising twice is normalising once. */
  lemma NormalizeDirIdempotent(p: string)
    ensures NormalizeDir(NormalizeDir(p)) == NormalizeDir(p)
  {
  }

  /** `file.substring(0, 1) === "."`: a hidden entry such as `.DS_Store`.
      An entry is hidden exactly when its first character is `.`; the empty
      name is not hidden. */
  predicate Hidden(entry: string)
    ensures Hidden(entry) <==> |entry| > 0 && entry[0] == '.'
  {
    Substring(entry, 0, 1) == "."
  }

  /** The entries `handleFolder` dispatches, in listing order. */
  function Visible(entries: seq<string>): (v: seq<string>)
    ensures forall k | 0 <= k < |v| :: !Hidden(v[k])
    ensures |v| <= |entries|
  {
    if entries == [] then []
    else
      var last := entries[|entries| - 1];
      Visible(entries[..|entries| - 1]) + (if Hidden(last) then [] else [last])
  }

  /** Filtering distributes over concatenation, so the order of the listing
      is kept. */
  lemma {:induction false} VisibleConcat(a: seq<string>, b: seq<string>)
    ensures Visible(a + b) == Visible(a) + Visible(b)
    decreases |b|
  {
    if b == [] {
      assert a + b == a;
    } else {
      var init := b[..|b| - 1];
      assert (a + b)[..|a + b| - 1] == a + init;
      assert (a + b)[|a + b| - 1] == b[|b| - 1];
      VisibleConcat(a, init);
    }
  }

  /** Every hidden entry is dropped and every other entry is kept exactly as
      many times as the listing holds it. */
  lemma {:induction false} VisibleCounts(entries: seq<string>, e: string)
    ensures Hidden(e) ==> multiset(Visible(entries))[e] == 0
    ensures !Hidden(e) ==> multiset(Visible(entries))[e] == multiset(entries)[e]
    decreases |entries|
  {
    if entries != [] {
      var init := entries[..|entries| - 1];
      var last := entries[|entries| - 1];
      assert entries == init + [last];
      VisibleCounts(init, e);
    }
  }

  /** One dispatched entry: a stylesheet page or a binary file. */
  datatype Dispatch = PushPage(fileName: string) | PushFile(path: string, folderId: Option<string>)

  /** Where one visible entry of `folder` goes. */
  function DispatchOf(folder: Folder, dir: string, folderId: Option<string>, entry: string): (d: Dispatch)
    ensures d.PushPage? <==> folder == Styles
    ensures d.PushPage? ==> d.fileName == entry
    ensures d.PushFile? ==> d.path == dir + entry && d.folderId == folderId
  {
    if folder == Styles then PushPage(entry) else PushFile(dir + entry, folderId)
  }

  /** The `list.forEach` of `handleFolder`: one dispatch per visible entry,
      in listing order. */
  method DispatchEntries(folder: Folder, dir: string, folderId: Option<string>, list: seq<string>)
    returns (ds: seq<Dispatch>)
    ensures |ds| == |Visible(list)|
    ensures forall k | 0 <= k < |ds| :: ds[k] == DispatchOf(folder, dir, folderId, Visible(list)[k])
  {
    ds := [];
    for i := 0 to |list|
      invariant |ds| == |Visible(list[..i])|
      invariant forall k | 0 <= k < |ds| :: ds[k] == DispatchOf(folder, dir, folderId, Visible(list[..i])[k])
    {
      assert list[..i + 1][..i] == list[..i];
      if Substring(list[i], 0, 1) != "." {
        ds := ds + [DispatchOf(folder, dir, folderId, list[i])];
      }
    }
    assert list[..|list|] == list;
  }

  /** How `handleFolder` ends for one folder. `idWarned` records that the
      folder id was missing and the run went on because of `--force`; the
      folder's promise is then already rejected. */
  datatype FolderOutcome =
    | Dispatched(dir: string, dispatches: seq<Dispatch>, idWarned: bool)
    | MissingFolderId
    | MissingPath

  /** `handleFolder(folder)`: `pathExists` is the answer of `fs.exists` and
      `list` that of `fs.readdir` for the folder's local path. `force` says
      whether `grunt.warn` lets the task go on (`--force`) or stops it. */
  method HandleFolder(opts: Options, folder: Folder, force: bool, pathExists: bool, list: seq<string>)
    returns (out: FolderOutcome)
    ensures out == MissingFolderId <==> !Truthy(FolderIdOf(opts, folder)) && !force
    ensures out == MissingPath <==>
      (Truthy(FolderIdOf(opts, folder)) || force) && !(pathExists && PathOf(opts, folder).Some?)
    ensures out.Dispatched? ==> out.idWarned == !Truthy(FolderIdOf(opts, folder))
    ensures out.Dispatched? ==> out.dir == NormalizeDir(PathOf(opts, folder).value)
    ensures out.Dispatched? ==> |out.dispatches| == |Visible(list)|
    ensures out.Dispatched? ==> forall k | 0 <= k < |out.dispatches| ::
      out.dispatches[k] == DispatchOf(folder, out.dir, FolderIdOf(opts, folder), Visible(list)[k])
  {
    var warned := !Truthy(FolderIdOf(opts, folder));
    if warned && !force {
      return MissingFolderId;
    }
    if !pathExists || PathOf(opts, folder).None? {
      return MissingPath;
    }
    var dir := PathOf(opts, folder).value;
    if !EndsWithSlash(dir) {
      dir := dir + "/";
    }
    var ds := DispatchEntries(folder, dir, FolderIdOf(opts, folder), list);
    out := Dispatched(dir, ds, warned);
  }

  /** One folder the run coordinator starts: its listing request, then
      `handleFolder`. */
  datatype Job = Job(folder: Folder, listingUri: string)

  /** The listing endpoint of a folder: images have their own. */
  function ListingUri(f: Folder, folderId: string): string {
    if f == Images then ImagesListingPrefix + folderId else FilesListingPrefix + folderId
  }

  /** A folder runs when both its path and its folder id are set, except
      styles, whose branch is commented out. */
  predicate Selected(opts: Options, f: Folder)
    ensures Selected(opts, f) <==>
      && f in {Images, Scripts, Fonts}
      && PathOf(opts, f).Some? && PathOf(opts, f).value != ""
      && FolderIdOf(opts, f).Some? && FolderIdOf(opts, f).value != ""
  {
    f != Styles && Truthy(PathOf(opts, f)) && Truthy(FolderIdOf(opts, f))
  }

  function Rank(f: Folder): nat {
    match f
    case Images => 0
    case Scripts => 1
    case Fonts => 2
    case Styles => 3
  }

  /** The branch of the run coordinator for one folder: its job when the
      folder is selected, nothing otherwise. */
  function JobFor(opts: Options, f: Folder): (js: seq<Job>)
    ensures |js| <= 1
    ensures |js| == 1 <==> Selected(opts, f)
    ensures |js| == 1 ==> js[0] == Job(f, ListingUri(f, FolderIdOf(opts, f).value))
  {
    if Selected(opts, f) then [Job(f, ListingUri(f, FolderIdOf(opts, f).value))] else []
  }

  /** The folders the run coordinator starts, in the order of its branches. */
  function Jobs(opts: Options): seq<Job> {
    JobFor(opts, Images) + JobFor(opts, Scripts) + JobFor(opts, Fonts)
  }

  /** Where each branch's job sits in `Jobs`. */
  lemma JobsLayout(opts: Options)
    ensures var im, sc := |JobFor(opts, Images)|, |JobFor(opts, Scripts)|;
      var jobs := Jobs(opts);
      && |jobs| == im + sc + |JobFor(opts, Fonts)|
      && (forall k | 0 <= k < im :: jobs[k] == JobFor(opts, Images)[k])
      && (forall k | im <= k < im + sc :: jobs[k] == JobFor(opts, Scripts)[k - im])
      && (forall k | im + sc <= k < |jobs| :: jobs[k] == JobFor(opts, Fonts)[k - im - sc])
  {
  }

  /** Exactly the selected folders run (so never styles), each with the
      listing URI of its folder id. */
  lemma {:induction false} JobsAreSelected(opts: Options)
    ensures forall f: Folder :: Selected(opts, f) <==> exists k | 0 <= k < |Jobs(opts)| :: Jobs(opts)[k].folder == f
    ensures forall k | 0 <= k < |Jobs(opts)| ::
      && Selected(opts, Jobs(opts)[k].folder)
      && Jobs(opts)[k].listingUri == ListingUri(Jobs(opts)[k].folder, FolderIdOf(opts, Jobs(opts)[k].folder).value)
  {
    JobsLayout(opts);
    var im, sc := |JobFor(opts, Images)|, |JobFor(opts, Scripts)|;
    var jobs := Jobs(opts);
    forall f: Folder | Selected(opts, f) ensures exists k | 0 <= k < |jobs| :: jobs[k].folder == f {
      if f == Images {
        assert jobs[0].folder == Images;
      } else if f == Scripts {
        assert jobs[im].folder == Scripts;
      } else {
        assert jobs[im + sc].folder == Fonts;
      }
    }
  }

  /** The selected folders start in the order images, scripts, fonts, each
      once. */
  lemma JobsInOrder(opts: Options)
    ensures forall i, k | 0 <= i < k < |Jobs(opts)| :: Rank(Jobs(opts)[i].folder) < Rank(Jobs(opts)[k].folder)
  {
  }

  /** What the coordinator decides after login. */
  datatype RunPlan =
    | AuthFailed
    | Run(noSourceWarning: bool, jobs: seq<Job>)

  /** The login callback: no `user` in the login response aborts the run;
      otherwise it warns when no local path is set at all, and starts the
      selected folders. */
  function PlanRun(userPresent: bool, opts: Options): (r: RunPlan)
    ensures r == AuthFailed <==> !userPresent
    ensures r.Run? ==> (r.noSourceWarning <==> forall f: Folder :: !Truthy(PathOf(opts, f)))
    ensures r.Run? ==> r.jobs == Jobs(opts)
  {
    if !userPresent then AuthFailed
    else
      var none := !Truthy(opts.images) && !Truthy(opts.scripts) && !Truthy(opts.fonts) && !Truthy(opts.styles);
      assert !none ==> exists f: Folder :: Truthy(PathOf(opts, f)) by {
        if Truthy(opts.images) { assert Truthy(PathOf(opts, Images)); }
        if Truthy(opts.scripts) { assert Truthy(PathOf(opts, Scripts)); }
        if Truthy(opts.fonts) { assert Truthy(PathOf(opts, Fonts)); }
        if Truthy(opts.styles) { assert Truthy(PathOf(opts, Styles)); }
      }
      Run(none, Jobs(opts))
  }

}
