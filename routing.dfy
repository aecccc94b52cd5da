/** File Uploader routing: the fixed REST paths of the CMS application that
    the modelled requests go to, and the request a binary upload sends. */
module Routing {
  import opened Js

  const FileCreateUri := "/CNPortletapp/rest/file/create"
  const FileSavePrefix := "/CNPortletapp/rest/file/save/"
  const PageTagsPrefix := "/CNPortletapp/rest/page/getTags/"
  const PageSavePrefix := "/CNPortletapp/rest/page/save/"
  const PagePublishPrefix := "/CNPortletapp/rest/page/publish/"
  const ImagesListingPrefix := "/CNPortletapp/rest/folder/getImages/"
  const FilesListingPrefix := "/CNPortletapp/rest/folder/getFiles/"

  /** The multipart upload `pushFile` sends: the target URI, the session it
      carries, and its data fields. The binary part is the local file at
      `localPath`. */
  datatype UploadRequest = UploadRequest(
    uri: string,
    cookie: Option<string>,
    sid: Option<string>,
    name: string,
    folderId: Option<string>,
    nodeId: Option<string>,
    fileName: string,
    localPath: string)

  /** The create endpoint is never a save endpoint, so the URI alone tells
      which of the two a request is. */
  lemma CreateIsNoSave(id: string)
    ensures FileSavePrefix + id != FileCreateUri
  {
    assert (FileSavePrefix + id)[24] == 's' && FileCreateUri[24] == 'c';
  }

  /** The save endpoint names the record it updates: two save URIs are equal
      only when the ids are. */
  lemma SaveUriDeterminesId(a: string, b: string)
    requires FileSavePrefix + a == FileSavePrefix + b
    ensures a == b
  {
    assert a == (FileSavePrefix + a)[|FileSavePrefix|..];
    assert b == (FileSavePrefix + b)[|FileSavePrefix|..];
  }
}
