/** The inbound notification as the handlers read it, the outbound calls they
    make, the answers the remote tracker gives, and the results they return. */
module Events {
  import opened Basics

  /** One tracker's configuration: base URL, bearer token and project key. */
  datatype Endpoint = Endpoint(url: string, token: string, projectKey: string)

  /** The `webhookEvent` field: a string (missing means "") or some other JSON value. */
  datatype EventField = EventText(name: string) | NotText

  /** A worklog duration field: missing or null, a JSON string, or a JSON integer. */
  datatype Scalar = Absent | Text(text: string) | Whole(n: int) {
    /** Python truthiness. */
    predicate Truthy() {
      match this
      case Absent => false
      case Text(t) => t != ""
      case Whole(n) => n != 0
    }
  }

  /** An attachment object of the payload. `otherKeys` says whether the object
      has a key that the four fields do not show as `Some`: a key outside these
      four, or one of them holding null. It matters only for the object's
      truthiness, since `{"content": null}` is a non-empty dict. */
  datatype AttachmentObj = AttachmentObj(id: Option<string>, filename: Option<string>, name: Option<string>,
                                         content: Option<string>, otherKeys: bool) {
    /** `{}`, the only falsy object. */
    predicate IsEmpty() {
      id.None? && filename.None? && name.None? && content.None? && !otherKeys
    }
  }

  /** A field expected to hold a list of attachment objects. */
  datatype ListField = Missing | ListOf(items: seq<AttachmentObj>) | NotAList(truthy: bool) {
    predicate Truthy() {
      match this
      case Missing => false
      case ListOf(items) => |items| > 0
      case NotAList(t) => t
    }
  }

  /** The parts of a notification payload that the core reads. */
  datatype Payload = Payload(
    webhookEvent: EventField,
    issueKey: Option<string>,          // issue.key
    summary: Option<string>,           // issue.fields.summary
    description: Option<string>,       // issue.fields.description
    commentBody: Option<string>,       // comment.body
    worklogComment: Option<string>,    // worklog.comment
    timeSpent: Scalar,                 // worklog.timeSpent
    timeSpentSeconds: Scalar,          // worklog.timeSpentSeconds
    attachment: Option<AttachmentObj>, // attachment
    attachments: ListField,            // attachments
    fieldAttachments: ListField)       // issue.fields.attachment

  /** The duration a relayed worklog carries. */
  datatype TimeField = SpentSeconds(seconds: int) | SpentText(text: string)

  /** The parsed body of an accepted upload: a list of attachment objects (their
      ids), an object with an id and possibly a nested `attachments` list, or
      anything else (including a body that is not JSON). */
  datatype UploadBody =
    | ListBody(ids: seq<Option<string>>)
    | ObjectBody(id: Option<string>, nested: NestedIds)
    | OtherBody

  /** The `attachments` key of an object body: absent, present with a value that
      is not a list (null included), or a list of attachment objects (their ids). */
  datatype NestedIds = NoNested | NestedNotList | NestedList(ids: seq<Option<string>>)

  /** The tracker's answer to "create issue": status, the `key` of the JSON body, raw text. */
  datatype CreateReply = CreateReply(code: int, key: Option<string>, text: string)

  /** Fetching the attachment bytes: done, or raised (transport error or a non-2xx status). */
  datatype DownloadResult = Downloaded | DownloadRaised(error: string)

  /** Uploading to the destination: a response, or an exception. */
  datatype UploadReply = UploadResponse(code: int, body: UploadBody, text: string) | UploadRaised(error: string)

  /** Every answer a single event may need from the remote trackers. */
  datatype Remote = Remote(create: CreateReply, postCode: int, download: DownloadResult, upload: UploadReply)

  /** An outbound call and the tracker it goes to. */
  datatype Request =
    | CreateIssue(endpoint: Endpoint, project: string, summary: string, description: string, issueType: string)
    | AddComment(endpoint: Endpoint, issueKey: string, body: string)
    | AddWorklog(endpoint: Endpoint, issueKey: string, comment: string, time: TimeField)
    | DownloadContent(endpoint: Endpoint, contentUrl: string)
    | UploadFile(endpoint: Endpoint, issueKey: string, filename: string)

  /** The `reason` an ignored attachment event carries. */
  datatype IgnoreReason = NoReason | NoAttachmentInPayload | NoContentUrl | AttachmentAlreadyMapped

  /** A handler's JSON result. */
  datatype Outcome =
    | Created(destKey: Option<string>)
    | AlreadyMapped(existingKey: string)
    | Ok(code: int)
    | Ignored(reason: IgnoreReason)
    | NoMapping
    | Uploaded(code: int, destAttachmentId: string)
    | CreateFailed(text: string)
    | DownloadFailed(error: string)
    | UploadFailed(code: int, text: string)
    | UploadException(exception: string)
  {
    /** The `status` field of the result. */
    function Status(): string {
      match this
      case Created(_) => "created"
      case AlreadyMapped(_) => "already_mapped"
      case Ok(_) => "ok"
      case Ignored(_) => "ignored"
      case NoMapping => "no_mapping"
      case Uploaded(_, _) => "uploaded"
      case _ => "error"
    }
  }

  /** The attachment an attachment event is about: the `attachment` object when it
      is non-empty, otherwise the last element of the first truthy list among
      `attachments` and `issue.fields.attachment`; None when that is missing or `{}`. */
  function SelectAttachment(p: Payload): (r: Option<AttachmentObj>)
    ensures r.Some? ==> !r.value.IsEmpty()
    ensures p.attachment.Some? && !p.attachment.value.IsEmpty() ==> r == p.attachment
    ensures r.Some? && r != p.attachment ==>
              (p.attachments.ListOf? && |p.attachments.items| > 0 && r.value == p.attachments.items[|p.attachments.items| - 1])
              || (!p.attachments.Truthy() && p.fieldAttachments.ListOf?
                  && |p.fieldAttachments.items| > 0 && r.value == p.fieldAttachments.items[|p.fieldAttachments.items| - 1])
    ensures ((p.attachment.None? || p.attachment.value.IsEmpty()) && p.attachments.ListOf?
             && |p.attachments.items| > 0 && !p.attachments.items[|p.attachments.items| - 1].IsEmpty())
            ==> r == Some(p.attachments.items[|p.attachments.items| - 1])
    ensures ((p.attachment.None? || p.attachment.value.IsEmpty()) && !p.attachments.Truthy()
             && p.fieldAttachments.ListOf? && |p.fieldAttachments.items| > 0
             && !p.fieldAttachments.items[|p.fieldAttachments.items| - 1].IsEmpty())
            ==> r == Some(p.fieldAttachments.items[|p.fieldAttachments.items| - 1])
  {
    if p.attachment.Some? && !p.attachment.value.IsEmpty() then p.attachment
    else
      var list := if p.attachments.Truthy() then p.attachments
                  else if p.fieldAttachments.Truthy() then p.fieldAttachments
                  else Missing;
      if list.ListOf? && |list.items| > 0 && !list.items[|list.items| - 1].IsEmpty()
      then Some(list.items[|list.items| - 1])
      else None
  }

  /** The file name sent with an upload: `filename`, else `name`, else "attachment". */
  function FileName(a: AttachmentObj): string {
    if Truthy(a.filename) then a.filename.value
    else if Truthy(a.name) then a.name.value
    else "attachment"
  }

  /** The duration a relayed worklog carries: `timeSpent` when truthy, else
      `timeSpentSeconds`; an integer goes as seconds, anything else as text,
      with "0s" standing in for a falsy value. */
  function ForwardedTime(timeSpent: Scalar, timeSpentSeconds: Scalar): (r: TimeField)
    ensures r.SpentText? ==> r.text != ""
    ensures r.SpentSeconds? ==> timeSpent == Whole(r.seconds) || timeSpentSeconds == Whole(r.seconds)
    ensures r.SpentText? && r.text != "0s" ==> timeSpent == Text(r.text) || timeSpentSeconds == Text(r.text)
    ensures timeSpent.Text? && timeSpent.text != "" ==> r == SpentText(timeSpent.text)
    ensures timeSpent.Whole? && timeSpent.n != 0 ==> r == SpentSeconds(timeSpent.n)
    ensures !timeSpent.Truthy() && timeSpentSeconds.Text? && timeSpentSeconds.text != ""
            ==> r == SpentText(timeSpentSeconds.text)
    ensures !timeSpent.Truthy() && timeSpentSeconds.Whole? ==> r == SpentSeconds(timeSpentSeconds.n)
    ensures !timeSpent.Truthy() && !timeSpentSeconds.Truthy() && !timeSpentSeconds.Whole? ==> r == SpentText("0s")
  {
    var t := if timeSpent.Truthy() then timeSpent else timeSpentSeconds;
    match t
    case Whole(n) => SpentSeconds(n)
    case Text(s) => if s != "" then SpentText(s) else SpentText("0s")
    case Absent => SpentText("0s")
  }

  /** The new attachment id read from an accepted upload: the first list
      element's id, or the object's truthy id, or the first id of its nested
      `attachments` list ("None" when that key is absent, since the default is
      `[{}]`); "" when indexing fails, which the handler catches, and for any
      other body. */
  function UploadedId(body: UploadBody): (r: string)
    ensures body.ListBody? && |body.ids| > 0 ==> r == IdText(body.ids[0])
    ensures body.ObjectBody? && Truthy(body.id) ==> r == body.id.value
    ensures body.OtherBody? || (body.ListBody? && |body.ids| == 0) ==> r == ""
    ensures body.ObjectBody? && !Truthy(body.id) && body.nested.NoNested? ==> r == "None"
    ensures body.ObjectBody? && !Truthy(body.id) && body.nested.NestedNotList? ==> r == ""
    ensures body.ObjectBody? && !Truthy(body.id) && body.nested.NestedList? ==>
              r == (if |body.nested.ids| > 0 then IdText(body.nested.ids[0]) else "")
  {
    match body
    case ListBody(ids) => if |ids| > 0 then IdText(ids[0]) else ""
    case ObjectBody(id, nested) =>
      if Truthy(id) then id.value
      else
        (match nested
         case NoNested => "None"
         case NestedNotList => ""
         case NestedList(ids) => if |ids| > 0 then IdText(ids[0]) else "")
    case OtherBody => ""
  }
}
