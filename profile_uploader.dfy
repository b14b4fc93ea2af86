/** The profile-image uploader (`src/components/ProfileUploader.tsx`): a
    component whose state is the selected file, its preview, a busy flag and
    an error text. A picked or dropped file is checked, type first and size
    second, and kept only when it passes; an upload posts the file as form data
    through `api` and always ends with the busy flag down. */
module ProfileUploader {
  import opened Wrappers
  import opened JsValues
  import opened Auth

  const MaxMb: nat := 5
  /** 5 MiB: the largest accepted size, in bytes. */
  const MaxBytes: nat := MaxMb * 1024 * 1024
  const Allowed: seq<string> := ["image/jpeg", "image/png", "image/webp"]
  const UploadPath := "/api/me/profile-image"

  const TypeMessage := "JPG/PNG/WebP 파일만 업로드할 수 있어요."
  const SizeMessage := "파일 용량이 너무 커요. 최대 " + NatToString(MaxMb) + "MB"
  /** What the catch clause shows for a thrown value that is not an Error. */
  const UploadFailed := "업로드 실패"

  /** Whether the parent's `onUpdated` callback ran, and with which argument
      (`data.url`, which is `undefined`, here `None`, when the reply has no `url`). */
  datatype Report = NotCalled | CalledWith(url: Option<Json>)

  /** The request `onUpload` sends for `f`: a POST of a form with the single
      part `file`, with the caller giving no headers of its own. */
  function UploadRequest(slot: Option<string>, f: File): Request {
    Request(UploadPath, Some("POST"), Form([FormPart("file", f)]), OutgoingHeaders(slot, map[]))
  }

  /** `e instanceof Error ? e.message : "업로드 실패"`. */
  function CaughtMessage(e: Thrown): (msg: string)
    ensures e.ErrorObject? ==> msg == e.message
    ensures !e.ErrorObject? ==> msg == UploadFailed
  {
    if e.ErrorObject? then e.message else UploadFailed
  }

  class Uploader {
    var file: Option<File>
    var preview: Option<string>
    var busy: bool
    var error: string

    /** The state a freshly mounted uploader starts in. */
    constructor ()
      ensures file == None && preview == None && !busy && error == ""
    {
      file, preview, busy, error := None, None, false, "";
    }

    /** `validateAndSet(f)`: a type outside `Allowed` is refused with the type
        message, whatever the size; then a size above `MaxBytes` is refused
        with the size message (exactly `MaxBytes` is accepted). A refused file
        leaves the earlier selection and its preview in place. An accepted file
        becomes the selection and clears the error; its preview is produced
        later by a `FileReader`, which is not modelled, so it is not changed here. */
    method ValidateAndSet(f: File)
      modifies this
      ensures f.mimeType !in Allowed ==> error == TypeMessage
      ensures f.mimeType in Allowed && f.size > MaxBytes ==> error == SizeMessage
      ensures f.mimeType in Allowed && f.size <= MaxBytes ==> error == "" && file == Some(f)
      ensures !(f.mimeType in Allowed && f.size <= MaxBytes) ==> file == old(file)
      ensures preview == old(preview) && busy == old(busy)
    {
      if f.mimeType !in Allowed {
        error := TypeMessage;
        return;
      }
      if f.size > MaxBytes {
        error := SizeMessage;
        return;
      }
      error := "";
      file := Some(f);
    }

    /** `onPick` / `onDrop`: the first file of the picked or dropped list, if
        any, goes through `ValidateAndSet`; an empty list changes nothing. */
    method OnPick(files: seq<File>)
      modifies this
      ensures files == [] ==> file == old(file) && preview == old(preview) && busy == old(busy) && error == old(error)
      ensures files != [] ==> preview == old(preview) && busy == old(busy)
      ensures files != [] && files[0].mimeType !in Allowed ==> file == old(file) && error == TypeMessage
      ensures files != [] && files[0].mimeType in Allowed && files[0].size > MaxBytes ==> file == old(file) && error == SizeMessage
      ensures files != [] && files[0].mimeType in Allowed && files[0].size <= MaxBytes ==> file == Some(files[0]) && error == ""
    {
      if files != [] {
        ValidateAndSet(files[0]);
      }
    }

    /** `onClear`: no selection, no preview, no error. */
    method OnClear()
      modifies this
      ensures file == None && preview == None && error == ""
      ensures busy == old(busy)
    {
      file := None;
      preview := None;
      error := "";
    }

    /** `onUpload`. Without a selected file it only alerts: no request is sent
        and the state is untouched. Otherwise it sends exactly one request, the
        form POST of the selected file, and ends with `busy` false whatever the
        outcome. When the reply arrives and the parent passed `onUpdated`, that
        callback gets `data.url` (reading `url` of an empty or `null` reply
        throws a `TypeError` first); then the selection is cleared. On a
        failure the message is shown and the selection is kept. */
    method OnUpload(store: TokenStore, host: Host, hasOnUpdated: bool) returns (sent: seq<Request>, report: Report)
      modifies this
      // no file: nothing sent, nothing changed
      ensures old(file).None? ==> sent == [] && report == NotCalled
      ensures old(file).None? ==> file == old(file) && preview == old(preview) && busy == old(busy) && error == old(error)
      // a file: one request, and busy is reset in every case
      ensures old(file).Some? ==> sent == [UploadRequest(store.slot, old(file).value)] && !busy
      ensures old(file).Some? ==>
        var outcome := Settle(host.server(sent[0]), host);
        match outcome
        case Rejected(m) =>
          report == NotCalled && file == old(file) && preview == old(preview) && error == m
        case Resolved(data) =>
          if hasOnUpdated && (data.None? || data.value.JNull?) then
            report == NotCalled && file == old(file) && preview == old(preview) && error == host.typeError(data, "url")
          else
            report == (if hasOnUpdated then CalledWith(Property(data.value, "url")) else NotCalled)
            && file == None && preview == None && error == ""
    {
      sent, report := [], NotCalled;
      if file.None? {
        return;
      }
      busy := true;
      var req, outcome := Api(store, UploadPath, Init(Some("POST"), Form([FormPart("file", file.value)]), map[]), host);
      sent := [req];
      var caught: Option<Thrown> := None;
      match outcome {
        case Rejected(m) =>
          caught := Some(ErrorObject(m));
        case Resolved(data) =>
          if hasOnUpdated {
            if data.None? || data.value.JNull? {
              caught := Some(ErrorObject(host.typeError(data, "url")));
            } else {
              report := CalledWith(Property(data.value, "url"));
            }
          }
          if caught.None? {
            OnClear();
          }
      }
      if caught.Some? {
        error := CaughtMessage(caught.value);
      }
      busy := false;
    }
  }

  /** The limit is 5 MiB, 5242880 bytes, and the size message names it as 5MB. */
  lemma UploadLimits()
    ensures MaxBytes == 5242880
    ensures SizeMessage == "파일 용량이 너무 커요. 최대 5MB"
    ensures Allowed == ["image/jpeg", "image/png", "image/webp"]
  {
  }

  /** The uploaded form is sent with `Content-Type: application/json`: the
      wrapper's default applies to every request and nothing suppresses it for
      form data. */
  lemma UploadDeclaresJson(slot: Option<string>, f: File)
    ensures UploadRequest(slot, f).body.Form?
    ensures UploadRequest(slot, f).headers[ContentType] == ApplicationJson
  {
  }
}
