# grunt-gentics-upload, modelled in Dafny

The `upload` Grunt task logs in to a Gentics CMS, lists the remote files of
the configured image, script and font folders, and uploads local assets. Each
binary file is created, or it is saved over the remote record of the same
name. The code also has `pushPage`, which writes a stylesheet into the CSS
tag of a CMS page and then saves and publishes the page. The styles branch of
the run is commented out, so no run lists pages or reaches `pushPage`. The
model covers `pushPage` all the same, as the code defines it. Behind the
network and file-system callbacks sits a small deterministic core. This
project models that core and proves what it does:

- **Session** (`session.dfy`, plus `Upload.UploadTask.AdoptSession`). Every
  successful response may offer a session id (`sid` in its body) and a cookie
  (`set-cookie`). Each field is taken only while it is still falsy, so it is
  set at most once per run, by the first response that offers a value.
- **Remote inventory** (`inventory.dfy`, plus `UploadTask.MergeListing` and
  `UploadTask.Find`). A listing response contributes `files`, else `pages`,
  else `images`, appended to one shared cache. `isExisting` returns the first
  record whose truthy `fileName` or truthy `name` equals the name asked for.
- **Upload routing** (`routing.dfy`, `UploadTask.PushFile`). A file goes to
  `/CNPortletapp/rest/file/create` when the lookup finds nothing, and to
  `/CNPortletapp/rest/file/save/<id>` otherwise. The request carries the base
  name as both `name` and `fileName`, plus the folder id, the node id and the
  session.
- **Page merge** (`pages.dfy`, `UploadTask.PushPage`). The page is the
  inventory record of the same name, or else the page the create call
  returns. The CSS tag is the last tag whose name contains `_css`. It gets
  the stylesheet text, is marked active, and is the only entry of the tag
  map. The page name is the file name up to its first `.`. A page without a
  CSS tag hits `grunt.warn`, so it is saved and published only under
  `--force`.
- **Folders and the run** (`folders.dfy`). The folder path gets a trailing
  `/`. Hidden entries are skipped. Every other entry is dispatched once, in
  listing order: to `pushPage` for `styles`, else to `pushFile`. After login,
  images, scripts and fonts run when both their path and their folder id are
  set. Styles never run, because that branch is commented out.
- **JavaScript behaviour** (`js.dfy`). The model spells out the JavaScript and
  Node.js behaviour the decisions depend on: truthiness of possibly absent
  strings, `indexOf`, the clamping `substring` (so `substring(0, -1)` is
  `""`), a literal regular-expression test, and `path.basename`.

`Upload.ImagesOnlyRun` puts the pieces together for a run with only `images`
configured. The folder holds a hidden entry, a new file and a file the listing
already has. The run makes one listing job, skips the hidden entry, sends one
create and one save to the right id, and both uploads carry the login
response's session.

A few behaviours of the code are easy to miss:

- There is a single `files` array for the whole run, shared by all folders.
  A name listed in one folder therefore routes a same-named file of another
  folder to an update.
- A listing response that has none of `files`, `pages` and `images` is
  ignored. No error is raised.
- The cache is never updated after a create.
- `grunt.warn` stops the task unless `--force` is given, and then it only
  logs. So `handleFolder` and `pushPage` take a `force` flag. With `--force`,
  `handleFolder` goes on after the missing-folder-id warning and dispatches
  the entries anyway. Runs never reach that warning, because a folder only
  runs when its folder id is set.

## Model

| member | source | states |
|---|---|---|
| `Session.Adopt` | tasks/uploadGentics.js:300-305 | a field that is set keeps its value; an unset field takes a truthy offered value; a falsy offer changes nothing |
| `Session.SettleKeepsFirst` | tasks/uploadGentics.js:300-305 | after any sequence of responses, a field that was set is unchanged; an unset one holds the first truthy value offered, or stays as it was when none was |
| `Session.FirstOfTwoWins` | tasks/uploadGentics.js:300-305 | of two responses that both carry a session value, only the first one's value persists |
| `Upload.UploadTask.constructor` | tasks/uploadGentics.js:39-49 | the run starts with no sid, no cookie and an empty cache |
| `Upload.UploadTask.AdoptSession` | tasks/uploadGentics.js:300-305 | sid and cookie follow the set-once rule independently of each other; a set field never changes; the cache is untouched |
| `Inventory.Listing` | tasks/uploadGentics.js:80-81 | the listing is absent exactly when none of files, pages, images is; otherwise it is files, failing that pages, failing that images |
| `Inventory.Merged` | tasks/uploadGentics.js:80-84 | the old cache is kept as a prefix, in order; the listing, if any, is exactly what follows it; with no listing the cache is unchanged |
| `Upload.UploadTask.MergeListing` | tasks/uploadGentics.js:79-85 | the cache becomes the old cache followed by the response's listing, or stays unchanged; the session is untouched |
| `Inventory.FirstMatchIndex` | tasks/uploadGentics.js:98-110 | not found exactly when no record answers to the name; otherwise the index of a record that answers, with none answering before it |
| `Inventory.Matches` | tasks/uploadGentics.js:100-104 | a record answers to a name exactly when the name is non-empty and equals the record's fileName or its name |
| `Inventory.FirstMatch` | tasks/uploadGentics.js:98-110 | not found exactly when no record matches (so always for an empty cache); a found record matches, and it sits at an index with no matching record before it |
| `Upload.UploadTask.Find` | tasks/uploadGentics.js:98-110 | the loop returns the first record, by index, whose truthy fileName or truthy name equals the name, and not-found exactly when there is none |
| `Inventory.FirstMatchIndexAppend` | tasks/uploadGentics.js:84-110 | appending records keeps the answer for a name already found; for a name not found, the answer is the first match among the appended records, shifted by the old length |
| `Inventory.MergeKeepsFound` | tasks/uploadGentics.js:84-110 | merging any listing never changes which record a name already found is routed to |
| `Routing.CreateIsNoSave` | tasks/uploadGentics.js:114-119 | the create URI differs from every save URI |
| `Routing.SaveUriDeterminesId` | tasks/uploadGentics.js:117-119 | two save URIs are equal only for equal ids |
| `Upload.UploadTask.PushFile` | tasks/uploadGentics.js:112-135 | the URI is the create endpoint exactly when the lookup of the base name fails, and otherwise the save endpoint of the found record's id; name and fileName are the base name; folderId, nodeId, sid and cookie are passed through |
| `Js.Basename` | tasks/uploadGentics.js:115 | the base name holds no `/`, is a suffix of the path, and is preceded by a `/` unless it is the whole path |
| `Js.BasenameOfEntry` | tasks/uploadGentics.js:157-167 | the base name of a slash-terminated folder joined with a listed entry is the entry |
| `Js.IndexOf` | tasks/uploadGentics.js:226 | -1 exactly when the character is absent; otherwise the position of its first occurrence |
| `Folders.NormalizeDir` | tasks/uploadGentics.js:157-159 | the result ends in `/`; a path already ending in `/` is unchanged; otherwise exactly one `/` is appended |
| `Folders.NormalizeDirIdempotent` | tasks/uploadGentics.js:157-159 | normalising twice is normalising once |
| `Folders.Hidden` | tasks/uploadGentics.js:163 | the `substring(0, 1)` test skips exactly the entries whose first character is `.`; the empty name is not skipped |
| `Folders.Visible` | tasks/uploadGentics.js:162-170 | no kept entry is hidden, and no more entries are kept than listed |
| `Folders.VisibleCounts` | tasks/uploadGentics.js:162-170 | a hidden entry is never kept; every other entry is kept exactly as often as it is listed |
| `Folders.VisibleConcat` | tasks/uploadGentics.js:162-170 | filtering the concatenation of two listings is concatenating their filterings, so listing order is kept |
| `Folders.DispatchOf` | tasks/uploadGentics.js:164-168 | a styles entry goes to pushPage with the entry name; any other entry goes to pushFile with folder path + entry and the folder's id |
| `Folders.DispatchEntries` | tasks/uploadGentics.js:162-170 | one dispatch per kept entry, in order: pushPage(entry) for styles, else pushFile(folder path + entry, folder id) |
| `Folders.HandleFolder` | tasks/uploadGentics.js:145-185 | a missing folder id stops the folder exactly when `--force` is off; a missing path stops it whenever it is reached; otherwise the path is normalised, the kept entries are dispatched as DispatchEntries says, and the outcome records whether the id warning was passed |
| `Folders.Selected` | tasks/uploadGentics.js:350-368 | a folder runs exactly when it is images, scripts or fonts and both its path and its folder id are present and non-empty |
| `Folders.JobFor` | tasks/uploadGentics.js:350-369 | a folder yields a job exactly when it is selected, at most one |
| `Folders.JobsAreSelected` | tasks/uploadGentics.js:350-369 | exactly the folders with both path and folder id run (never styles), each with the listing URI of its folder id (getImages for images, getFiles otherwise) |
| `Folders.JobsInOrder` | tasks/uploadGentics.js:350-364 | the jobs start in the order images, scripts, fonts, each folder at most once |
| `Folders.PlanRun` | tasks/uploadGentics.js:341-369 | a login response without `user` aborts the run; otherwise the no-source warning is raised exactly when no folder path is set, and the selected folders start |
| `Pages.LastCssIndex` | tasks/uploadGentics.js:206-211 | no index exactly when no tag name contains `_css`; otherwise a CSS tag with no CSS tag after it |
| `Pages.SelectCssTag` | tasks/uploadGentics.js:206-212 | the overwriting `forEach` leaves the last CSS tag, and nothing exactly when there is none |
| `Pages.CssTagMap` | tasks/uploadGentics.js:215-221 | with no CSS tag the map is empty; otherwise its only key is the tag's name, mapped to the tag with the stylesheet text and active set |
| `Pages.PageName` | tasks/uploadGentics.js:226 | the page name is a prefix of the file name holding no `.`, and it stops right at the first `.` when there is one |
| `Pages.PageNameIsStem` | tasks/uploadGentics.js:226 | the page name is the file name before its first `.`, the empty string when there is no `.`, and never contains `.` |
| `Upload.UploadTask.PushPage` | tasks/uploadGentics.js:189-292 | a page is created (with the styles folder, template, node and language "en") exactly when the lookup of the file name fails; save and publish are sent unless the page has no CSS tag and `--force` is off; tags, save and publish all use the found or created page id; the payload has the page name, the unchanged file name and the CSS tag map, which is empty when there is no CSS tag |
| `Upload.HiddenEntrySkipped` | tasks/uploadGentics.js:162-163 | of `.DS_Store` and two names not starting with `.`, only the two names are kept, in order |
| `Upload.OneListedRecord` | tasks/uploadGentics.js:98-110 | with one record named `y` cached, a lookup of `y` finds it and a lookup of any other name finds nothing |
| `Upload.ImagesOnlyPlan` | tasks/uploadGentics.js:341-364 | with only images and its folder id set, login starts the images listing alone and raises no warning |
| `Upload.ImagesOnlyRun` | tasks/uploadGentics.js:112-170 | with only images configured: one listing job; the folder dispatches exactly two uploads, the new file then the listed one, both to the images folder id; the new file is created, the listed file saved under its id, both with the first session |

## Left out

- HTTP transport (`restler`) and its success/fail/error events. A successful response is an input value (`Response`, a created page id, a tag list); failures are not modelled.
- The Q promises and `Q.all`. The model does not capture concurrency, so it says nothing about interleavings between folders. Because the cache is shared, how much of it a lookup sees depends on which listings have finished.
- File-system calls (`fs.exists`, `fs.readdir`, `fs.stat`, `fs.readFile`) and `mime.lookup`. Their answers are parameters (`pathExists`, `list`, `content`), and file size and MIME type are not part of `UploadRequest`.
- Credential prompts (`read`), the text of `grunt.warn` and `grunt.log` messages, console output, the `log.json` write and the `done()` signals. These are UI and diagnostics only. Where `grunt.warn` decides whether the task goes on (it stops the task unless `--force` is given), that is modelled by the `force` flags of `HandleFolder` and `PushPage`.
- The login request itself and `logout`. `logout` is defined but never called. The login response is reduced to whether it has `user` and to the session it offers.
- The in-place update of `options[folder]` by `handleFolder`. The normalised path is returned as `Dispatched.dir`. Its only later reader is the `readFile` path of `pushPage`, which is I/O.
- The "Response type not recognized" branch of `getFiles`. Under the guard before it, that branch cannot be reached.
- `Js.Basename`: does not strip trailing `/` as `path.basename` does, because every path the task passes ends in a listed entry name.
- Tag fields other than name, `active` and the text value. The tag map carries only the CSS tag.
- Gruntfile.js, which holds build configuration only.
