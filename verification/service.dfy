/** The handlers as the procedures they are: read the store, make at most the
    calls the event needs, write the store. Each is proved to do exactly what
    the corresponding function of `Handlers` describes. */
module Service {
  import opened Basics
  import opened Text
  import opened SyncTags
  import opened MappingTables
  import opened Events
  import opened Handlers
  import opened Dispatch
  import opened Store

  /** `handle_issue_created` against the store. */
  method HandleIssueCreated(store: MappingStore, p: Payload, dest: Endpoint, dir: Direction, reply: CreateReply)
    returns (out: Outcome, sent: seq<Request>)
    requires store.Valid()
    modifies store
    ensures store.Valid()
    ensures Step(out, sent, store.Snapshot()) == IssueCreated(old(store.Snapshot()), p, dest, dir, reply)
  {
    var destKey := if dir == AtoB then store.FindMappedToB(p.issueKey) else store.FindMappedToA(p.issueKey);
    if Truthy(destKey) {
      return AlreadyMapped(destKey.value), [];
    }
    sent := [CreateIssue(dest, dest.projectKey, OrEmpty(p.summary),
                         OrEmpty(p.description) + ProvenanceNote(dir), FallbackIssueType)];
    if Acknowledged(reply.code) {
      if dir == AtoB {
        store.MapIssue(p.issueKey, reply.key);
      } else {
        store.MapIssue(reply.key, p.issueKey);
      }
      out := Created(reply.key);
    } else {
      out := CreateFailed(reply.text);
    }
  }

  /** `handle_comment_event` against the store, which it only reads. */
  method HandleCommentEvent(store: MappingStore, p: Payload, dest: Endpoint, dir: Direction, code: int)
    returns (out: Outcome, sent: seq<Request>)
    ensures Step(out, sent, store.Snapshot()) == CommentEvent(store.Snapshot(), p, dest, dir, code)
  {
    var body := OrEmpty(p.commentBody);
    if dir == AtoB && IsSyncedFromB(body) {
      return Ignored(NoReason), [];
    }
    if dir == BtoA && IsSyncedFromA(body) {
      return Ignored(NoReason), [];
    }
    var destKey := if dir == AtoB then store.FindMappedToB(p.issueKey) else store.FindMappedToA(p.issueKey);
    if !Truthy(destKey) {
      return NoMapping, [];
    }
    var newBody := AppendSyncTag(body, TagFor(dir));
    out, sent := Ok(code), [AddComment(dest, destKey.value, newBody)];
  }

  /** `handle_worklog_event` against the store, which it only reads. */
  method HandleWorklogEvent(store: MappingStore, p: Payload, dest: Endpoint, dir: Direction, code: int)
    returns (out: Outcome, sent: seq<Request>)
    ensures Step(out, sent, store.Snapshot()) == WorklogEvent(store.Snapshot(), p, dest, dir, code)
  {
    var comment := OrEmpty(p.worklogComment);
    var time := ForwardedTime(p.timeSpent, p.timeSpentSeconds);
    if dir == AtoB && IsSyncedFromB(comment) {
      return Ignored(NoReason), [];
    }
    if dir == BtoA && IsSyncedFromA(comment) {
      return Ignored(NoReason), [];
    }
    var destKey := if dir == AtoB then store.FindMappedToB(p.issueKey) else store.FindMappedToA(p.issueKey);
    if !Truthy(destKey) {
      return NoMapping, [];
    }
    var tagged := AppendSyncTag(comment, TagFor(dir));
    out, sent := Ok(code), [AddWorklog(dest, destKey.value, tagged, time)];
  }

  /** `handle_attachment_created` against the store, under the duplicate guard `g`. */
  method HandleAttachmentCreated(g: AttachmentGuard, store: MappingStore, p: Payload, source: Endpoint, dest: Endpoint, dir: Direction,
                                 download: DownloadResult, upload: UploadReply)
    returns (out: Outcome, sent: seq<Request>)
    modifies store
    ensures store.issueRows == old(store.issueRows)
    ensures Step(out, sent, store.Snapshot())
            == AttachmentCreated(g, old(store.Snapshot()), p, source, dest, dir, download, upload)
  {
    var attachment := SelectAttachment(p);
    if attachment.None? {
      return Ignored(NoAttachmentInPayload), [];
    }
    var a := attachment.value;
    var attachmentId := IdText(a.id);
    if !Truthy(a.content) {
      return Ignored(NoContentUrl), [];
    }
    var sourceUrl := RStripSlash(source.url);
    if Known(g, store.attachmentRows, sourceUrl, attachmentId) {
      return Ignored(AttachmentAlreadyMapped), [];
    }
    var destIssueKey := if dir == AtoB then store.FindMappedToB(p.issueKey) else store.FindMappedToA(p.issueKey);
    if !Truthy(destIssueKey) {
      return NoMapping, [];
    }
    sent := [DownloadContent(source, a.content.value)];
    if download.DownloadRaised? {
      return DownloadFailed(download.error), sent;
    }
    sent := sent + [UploadFile(dest, destIssueKey.value, FileName(a))];
    if upload.UploadRaised? {
      return UploadException(upload.error), sent;
    }
    if Acknowledged(upload.code) {
      var newId := UploadedId(upload.body);
      store.MapAttachment(sourceUrl, p.issueKey.value, attachmentId,
                          RStripSlash(dest.url), destIssueKey.value, newId);
      out := Uploaded(upload.code, newId);
    } else {
      out := UploadFailed(upload.code, upload.text);
    }
  }

  /** `webhook_a_to_b` (dir = AtoB) and `webhook_b_to_a` (dir = BtoA), with
      the attachment handler under the duplicate guard `g`. */
  method HandleWebhook(g: AttachmentGuard, store: MappingStore, dir: Direction, a: Endpoint, b: Endpoint, p: Payload, remote: Remote)
    returns (out: Outcome, sent: seq<Request>)
    requires store.Valid()
    modifies store
    ensures store.Valid()
    ensures Step(out, sent, store.Snapshot()) == Webhook(g, old(store.Snapshot()), dir, a, b, p, remote)
  {
    var source, dest := if dir == AtoB then a else b, if dir == AtoB then b else a;
    match Classify(p.webhookEvent)
    case ToAttachment =>
      out, sent := HandleAttachmentCreated(g, store, p, source, dest, dir, remote.download, remote.upload);
    case ToComment =>
      out, sent := HandleCommentEvent(store, p, dest, dir, remote.postCode);
    case ToWorklog =>
      out, sent := HandleWorklogEvent(store, p, dest, dir, remote.postCode);
    case ToIssueCreated =>
      out, sent := HandleIssueCreated(store, p, dest, dir, remote.create);
    case NoRoute =>
      out, sent := Ignored(NoReason), [];
  }
}
