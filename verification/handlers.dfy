/** The four event handlers as functions of the store's tables, the payload and
    the remote tracker's answers. Each yields its result, the outbound calls it
    made (none when `sent` is empty) and the tables afterwards. */
module Handlers {
  import opened Basics
  import opened Text
  import opened SyncTags
  import opened MappingTables
  import opened Events

  /** One handler run: the JSON result, the calls made in order, the new tables. */
  datatype Step = Step(out: Outcome, sent: seq<Request>, after: Tables)

  /** The `issue_map` column that holds keys of the side an event comes from. */
  function SourceSide(dir: Direction): Side {
    if dir == AtoB then SideA else SideB
  }

  /** `find_mapped_to_b` for A-to-B, `find_mapped_to_a` for B-to-A. */
  function Counterpart(rows: seq<IssueRow>, dir: Direction, key: Option<string>): Option<string> {
    Lookup(rows, SourceSide(dir), key)
  }

  /** The row recorded for a source key and its new copy, oriented by direction. */
  function Oriented(dir: Direction, sourceKey: Option<string>, destKey: Option<string>): IssueRow {
    Pair(SourceSide(dir), sourceKey, destKey)
  }

  /** The issue type of every issue the bridge creates. */
  const FallbackIssueType: string := "Task"

  /** The note appended to a copied issue's description. */
  function ProvenanceNote(dir: Direction): string {
    "\n\n(Synced from " + [dir.Origin()] + ")"
  }

  /** The tracker accepted the request. */
  predicate Acknowledged(code: int) {
    code == 200 || code == 201
  }

  // ---------------------------------------------------------------- issues

  /** `handle_issue_created`. */
  function IssueCreated(s: Tables, p: Payload, dest: Endpoint, dir: Direction, reply: CreateReply): (r: Step)
    ensures r.after.attachments == s.attachments
    ensures r.out.AlreadyMapped? <==> Truthy(Counterpart(s.issues, dir, p.issueKey))
    ensures r.out.AlreadyMapped? ==>
              Counterpart(s.issues, dir, p.issueKey) == Some(r.out.existingKey) && r.sent == [] && r.after == s
    ensures !r.out.AlreadyMapped? ==>
              r.sent == [CreateIssue(dest, dest.projectKey, OrEmpty(p.summary),
                                     OrEmpty(p.description) + ProvenanceNote(dir), FallbackIssueType)]
    ensures r.out.Created? <==> !r.out.AlreadyMapped? && Acknowledged(reply.code)
    ensures r.out.Created? ==>
              r.out.destKey == reply.key && r.after.issues == Upsert(s.issues, Oriented(dir, p.issueKey, reply.key))
    ensures !r.out.Created? ==> r.after == s
    ensures r.out.AlreadyMapped? || r.out.Created? || r.out == CreateFailed(reply.text)
  {
    var found := Counterpart(s.issues, dir, p.issueKey);
    if Truthy(found) then Step(AlreadyMapped(found.value), [], s)
    else
      var req := CreateIssue(dest, dest.projectKey, OrEmpty(p.summary),
                             OrEmpty(p.description) + ProvenanceNote(dir), FallbackIssueType);
      if Acknowledged(reply.code) then
        Step(Created(reply.key), [req], Tables(Upsert(s.issues, Oriented(dir, p.issueKey, reply.key)), s.attachments))
      else
        Step(CreateFailed(reply.text), [req], s)
  }

  /** Creating an issue keeps `issue_map` one-to-one. */
  lemma IssueCreatedKeepsOneToOne(s: Tables, p: Payload, dest: Endpoint, dir: Direction, reply: CreateReply)
    requires OneToOne(s.issues)
    ensures OneToOne(IssueCreated(s, p, dest, dir, reply).after.issues)
  {
    UpsertOneToOne(s.issues, Oriented(dir, p.issueKey, reply.key));
  }

  /** A successful creation links the two keys both ways: the source key now
      finds the new key in this direction, and the new key finds the source key
      in the opposite direction. */
  lemma IssueCreatedLinksBothWays(s: Tables, p: Payload, dest: Endpoint, dir: Direction, reply: CreateReply)
    requires IssueCreated(s, p, dest, dir, reply).out.Created?
    ensures var after := IssueCreated(s, p, dest, dir, reply).after.issues;
            (p.issueKey.Some? ==> Counterpart(after, dir, p.issueKey) == reply.key)
            && (reply.key.Some? ==> Counterpart(after, dir.Opposite(), reply.key) == p.issueKey)
  {
    var row := Oriented(dir, p.issueKey, reply.key);
    if p.issueKey.Some? {
      UpsertFinds(s.issues, row, SourceSide(dir));
    }
    if reply.key.Some? {
      UpsertFinds(s.issues, row, SourceSide(dir).Other());
    }
  }

  /** A second delivery of the same issue-created event after a successful
      creation answers `already_mapped` with the key created the first time, and
      neither calls the tracker nor writes the store. */
  lemma IssueCreatedTwice(s: Tables, p: Payload, dest: Endpoint, dir: Direction, reply: CreateReply,
                          dest': Endpoint, reply': CreateReply, k: string)
    requires p.issueKey.Some?
    requires IssueCreated(s, p, dest, dir, reply).out == Created(Some(k)) && k != ""
    ensures var s1 := IssueCreated(s, p, dest, dir, reply).after;
            IssueCreated(s1, p, dest', dir, reply') == Step(AlreadyMapped(k), [], s1)
  {
    IssueCreatedLinksBothWays(s, p, dest, dir, reply);
  }

  /** The destination's own issue-created notification for the copy, arriving
      through the opposite path, answers `already_mapped` with the original key. */
  lemma IssueCreatedEchoIsAlreadyMapped(s: Tables, p: Payload, dest: Endpoint, dir: Direction, reply: CreateReply,
                                        echo: Payload, dest': Endpoint, reply': CreateReply, k: string, x: string)
    requires p.issueKey == Some(x) && x != ""
    requires IssueCreated(s, p, dest, dir, reply).out == Created(Some(k))
    requires echo.issueKey == Some(k)
    ensures var s1 := IssueCreated(s, p, dest, dir, reply).after;
            IssueCreated(s1, echo, dest', dir.Opposite(), reply') == Step(AlreadyMapped(x), [], s1)
  {
    IssueCreatedLinksBothWays(s, p, dest, dir, reply);
  }

  // ------------------------------------------------------ comments, worklogs

  /** What the comment and worklog handlers decide about a text. */
  datatype RelayPlan = Echo | Unmapped | Forward(destKey: string, text: string)

  /** The shared decision of `handle_comment_event` and `handle_worklog_event`:
      drop an echo before anything else, then give up without a mapped issue,
      otherwise forward the text with this direction's tag. */
  function Relay(rows: seq<IssueRow>, dir: Direction, issueKey: Option<string>, text: string): (r: RelayPlan)
    ensures r.Echo? <==> IsEcho(dir, text)
    ensures r.Unmapped? <==> !IsEcho(dir, text) && !Truthy(Counterpart(rows, dir, issueKey))
    ensures r.Forward? ==> Counterpart(rows, dir, issueKey) == Some(r.destKey) && r.destKey != ""
    ensures r.Forward? ==> Occurs(TagFor(dir), r.text) && StartsWith(r.text, text)
    ensures r.Forward? ==> r.text == AppendSyncTag(text, TagFor(dir))
  {
    if IsEcho(dir, text) then Echo
    else
      var destKey := Counterpart(rows, dir, issueKey);
      if !Truthy(destKey) then Unmapped
      else Forward(destKey.value, AppendSyncTag(text, TagFor(dir)))
  }

  /** `handle_comment_event`. */
  function CommentEvent(s: Tables, p: Payload, dest: Endpoint, dir: Direction, code: int): (r: Step)
    ensures r.after == s
    ensures r.out.Ignored? || r.out.NoMapping? || r.out.Ok?
    ensures r.out.Ignored? <==> IsEcho(dir, OrEmpty(p.commentBody))
    ensures r.out.Ignored? ==> r.out.reason == NoReason
    ensures r.out.NoMapping? <==> !IsEcho(dir, OrEmpty(p.commentBody)) && !Truthy(Counterpart(s.issues, dir, p.issueKey))
    ensures r.sent == [] <==> !r.out.Ok?
    ensures r.out.Ok? ==>
              r.out.code == code
              && r.sent == [AddComment(dest, Counterpart(s.issues, dir, p.issueKey).value,
                                       AppendSyncTag(OrEmpty(p.commentBody), TagFor(dir)))]
  {
    match Relay(s.issues, dir, p.issueKey, OrEmpty(p.commentBody))
    case Echo => Step(Ignored(NoReason), [], s)
    case Unmapped => Step(NoMapping, [], s)
    case Forward(key, text) => Step(Ok(code), [AddComment(dest, key, text)], s)
  }

  /** `handle_worklog_event`. */
  function WorklogEvent(s: Tables, p: Payload, dest: Endpoint, dir: Direction, code: int): (r: Step)
    ensures r.after == s
    ensures r.out.Ignored? || r.out.NoMapping? || r.out.Ok?
    ensures r.out.Ignored? <==> IsEcho(dir, OrEmpty(p.worklogComment))
    ensures r.out.Ignored? ==> r.out.reason == NoReason
    ensures r.out.NoMapping? <==> !IsEcho(dir, OrEmpty(p.worklogComment)) && !Truthy(Counterpart(s.issues, dir, p.issueKey))
    ensures r.sent == [] <==> !r.out.Ok?
    ensures r.out.Ok? ==>
              r.out.code == code
              && r.sent == [AddWorklog(dest, Counterpart(s.issues, dir, p.issueKey).value,
                                       AppendSyncTag(OrEmpty(p.worklogComment), TagFor(dir)),
                                       ForwardedTime(p.timeSpent, p.timeSpentSeconds))]
  {
    match Relay(s.issues, dir, p.issueKey, OrEmpty(p.worklogComment))
    case Echo => Step(Ignored(NoReason), [], s)
    case Unmapped => Step(NoMapping, [], s)
    case Forward(key, text) =>
      Step(Ok(code), [AddWorklog(dest, key, text, ForwardedTime(p.timeSpent, p.timeSpentSeconds))], s)
  }

  /** A comment carrying the tag of direction `dir` is ignored by the handler of
      the opposite direction, whatever the tables hold, and no call is made. The
      comment that direction relayed carries the tag (`AppendSyncTag`), and so
      does any text the tracker keeps it in, edited around the tag or not. */
  lemma RelayedCommentEchoIgnored(s: Tables, echo: Payload, dest: Endpoint, dir: Direction, code: int)
    requires Occurs(TagFor(dir), OrEmpty(echo.commentBody))
    ensures CommentEvent(s, echo, dest, dir.Opposite(), code) == Step(Ignored(NoReason), [], s)
  {
    EchoIsTagOccurrence(dir.Opposite(), OrEmpty(echo.commentBody));
  }

  /** The same for a worklog note carrying the tag of direction `dir`. */
  lemma RelayedWorklogEchoIgnored(s: Tables, echo: Payload, dest: Endpoint, dir: Direction, code: int)
    requires Occurs(TagFor(dir), OrEmpty(echo.worklogComment))
    ensures WorklogEvent(s, echo, dest, dir.Opposite(), code) == Step(Ignored(NoReason), [], s)
  {
    EchoIsTagOccurrence(dir.Opposite(), OrEmpty(echo.worklogComment));
  }

  // ------------------------------------------------------------ attachments

  /** The guard as the handler writes it: the attachment's (source URL, id)
      is the primary key of a stored row. */
  predicate MappedAsSource(atts: map<AttachmentKey, AttachmentRow>, url: string, id: string) {
    FindAttachment(atts, url, id).Some?
  }

  /** The attachment is the copy that an earlier upload produced: a stored row
      names it as its destination. */
  predicate MappedAsCopy(atts: map<AttachmentKey, AttachmentRow>, url: string, id: string) {
    exists k :: k in atts && atts[k].destJira == url && atts[k].destAttachmentId == id
  }

  /** The corrected guard: an attachment is known when it was uploaded from this
      source before, or is itself the copy of an upload. */
  predicate AttachmentKnown(atts: map<AttachmentKey, AttachmentRow>, url: string, id: string) {
    MappedAsSource(atts, url, id) || MappedAsCopy(atts, url, id)
  }

  /** Which duplicate guard the attachment handler applies: the one written at
      lines 242-247 of the source, or the corrected one. */
  datatype AttachmentGuard = SourceKeyOnly | SourceOrCopy

  /** The guard `g` says the attachment with this URL and id was handled before. */
  predicate Known(g: AttachmentGuard, atts: map<AttachmentKey, AttachmentRow>, url: string, id: string) {
    match g
    case SourceKeyOnly => MappedAsSource(atts, url, id)
    case SourceOrCopy => AttachmentKnown(atts, url, id)
  }

  /** The attachment event gets past the three early exits: an attachment with a
      content URL was selected, the guard does not know it, and its issue is paired. */
  predicate Fetches(g: AttachmentGuard, s: Tables, p: Payload, source: Endpoint, dir: Direction) {
    var sel := SelectAttachment(p);
    sel.Some? && Truthy(sel.value.content)
    && !Known(g, s.attachments, RStripSlash(source.url), IdText(sel.value.id))
    && Truthy(Counterpart(s.issues, dir, p.issueKey))
  }

  /** `handle_attachment_created`, under the duplicate guard `g`. */
  function AttachmentCreated(g: AttachmentGuard, s: Tables, p: Payload, source: Endpoint, dest: Endpoint,
                             dir: Direction, download: DownloadResult, upload: UploadReply): (r: Step)
    ensures r.after.issues == s.issues
    ensures r.out.Status() in {"ignored", "no_mapping", "uploaded", "error"}
    ensures r.after != s ==> r.out.Uploaded?
    ensures r.out.Ignored? || r.out.NoMapping? ==> r.sent == [] && r.after == s
    ensures |r.sent| <= 2
    ensures SelectAttachment(p).None? ==> r == Step(Ignored(NoAttachmentInPayload), [], s)
    ensures SelectAttachment(p).Some? && !Truthy(SelectAttachment(p).value.content)
            ==> r == Step(Ignored(NoContentUrl), [], s)
    ensures r.out == Ignored(AttachmentAlreadyMapped) <==>
              SelectAttachment(p).Some? && Truthy(SelectAttachment(p).value.content)
              && Known(g, s.attachments, RStripSlash(source.url), IdText(SelectAttachment(p).value.id))
    ensures r.out == Ignored(AttachmentAlreadyMapped) ==> r == Step(Ignored(AttachmentAlreadyMapped), [], s)
    ensures SelectAttachment(p).Some? && Truthy(SelectAttachment(p).value.content)
            && !Known(g, s.attachments, RStripSlash(source.url), IdText(SelectAttachment(p).value.id))
            && !Truthy(Counterpart(s.issues, dir, p.issueKey))
            ==> r == Step(NoMapping, [], s)
    ensures r.sent != [] <==> Fetches(g, s, p, source, dir)
    ensures Fetches(g, s, p, source, dir) ==>
              var a := SelectAttachment(p).value;
              var key := AttachmentKey(RStripSlash(source.url), IdText(a.id));
              var destKey := Counterpart(s.issues, dir, p.issueKey).value;
              r.sent[0] == DownloadContent(source, a.content.value)
              && (download.DownloadRaised? ==> r == Step(DownloadFailed(download.error), [r.sent[0]], s))
              && (download == Downloaded ==>
                    |r.sent| == 2 && r.sent[1] == UploadFile(dest, destKey, FileName(a))
                    && (upload.UploadRaised? ==> r.out == UploadException(upload.error) && r.after == s)
                    && (upload.UploadResponse? && !Acknowledged(upload.code) ==>
                          r.out == UploadFailed(upload.code, upload.text) && r.after == s)
                    && (upload.UploadResponse? && Acknowledged(upload.code) ==>
                          r.out == Uploaded(upload.code, UploadedId(upload.body))
                          && key !in s.attachments
                          && r.after.attachments
                             == s.attachments[key := AttachmentRow(p.issueKey.value, RStripSlash(dest.url),
                                                                   destKey, r.out.destAttachmentId)]))
    ensures r.out.Uploaded? ==>
              Fetches(g, s, p, source, dir) && download == Downloaded
              && upload.UploadResponse? && Acknowledged(upload.code)
  {
    var sel := SelectAttachment(p);
    if sel.None? then Step(Ignored(NoAttachmentInPayload), [], s)
    else
      var a := sel.value;
      var id := IdText(a.id);
      if !Truthy(a.content) then Step(Ignored(NoContentUrl), [], s)
      else
        var sourceUrl := RStripSlash(source.url);
        if Known(g, s.attachments, sourceUrl, id) then Step(Ignored(AttachmentAlreadyMapped), [], s)
        else
          var destKey := Counterpart(s.issues, dir, p.issueKey);
          if !Truthy(destKey) then Step(NoMapping, [], s)
          else
            var get := DownloadContent(source, a.content.value);
            match download
            case DownloadRaised(e) => Step(DownloadFailed(e), [get], s)
            case Downloaded =>
              var put := UploadFile(dest, destKey.value, FileName(a));
              match upload
              case UploadRaised(e) => Step(UploadException(e), [get, put], s)
              case UploadResponse(code, body, text) =>
                if Acknowledged(code) then
                  var newId := UploadedId(body);
                  var row := AttachmentRow(p.issueKey.value, RStripSlash(dest.url), destKey.value, newId);
                  Step(Uploaded(code, newId), [get, put],
                       Tables(s.issues, s.attachments[AttachmentKey(sourceUrl, id) := row]))
                else
                  Step(UploadFailed(code, text), [get, put], s)
  }

  /** A redelivered attachment-created event for an attachment already uploaded
      is ignored under either guard: nothing is downloaded, uploaded or written. */
  lemma AttachmentRedeliveryIgnored(g: AttachmentGuard, s: Tables, p: Payload, source: Endpoint, dest: Endpoint,
                                    dir: Direction, download: DownloadResult, upload: UploadReply,
                                    dest': Endpoint, dir': Direction, download': DownloadResult, upload': UploadReply)
    requires AttachmentCreated(g, s, p, source, dest, dir, download, upload).out.Uploaded?
    ensures var s1 := AttachmentCreated(g, s, p, source, dest, dir, download, upload).after;
            AttachmentCreated(g, s1, p, source, dest', dir', download', upload')
            == Step(Ignored(AttachmentAlreadyMapped), [], s1)
  {
  }

  /** With the corrected guard, the destination's own attachment-created
      notification for the uploaded copy, arriving through the opposite path,
      is ignored: the copy is not uploaded back. */
  lemma {:induction false} UploadEchoIgnored(s: Tables, p: Payload, source: Endpoint, dest: Endpoint, dir: Direction,
                                             download: DownloadResult, upload: UploadReply,
                                             echo: Payload, dest': Endpoint,
                                             download': DownloadResult, upload': UploadReply)
    requires AttachmentCreated(SourceOrCopy, s, p, source, dest, dir, download, upload).out.Uploaded?
    requires SelectAttachment(echo).Some? && Truthy(SelectAttachment(echo).value.content)
    requires IdText(SelectAttachment(echo).value.id)
             == AttachmentCreated(SourceOrCopy, s, p, source, dest, dir, download, upload).out.destAttachmentId
    ensures var s1 := AttachmentCreated(SourceOrCopy, s, p, source, dest, dir, download, upload).after;
            AttachmentCreated(SourceOrCopy, s1, echo, dest, dest', dir.Opposite(), download', upload')
            == Step(Ignored(AttachmentAlreadyMapped), [], s1)
  {
    var r := AttachmentCreated(SourceOrCopy, s, p, source, dest, dir, download, upload);
    var key := AttachmentKey(RStripSlash(source.url), IdText(SelectAttachment(p).value.id));
    assert key in r.after.attachments;
    assert r.after.attachments[key].destJira == RStripSlash(dest.url);
    assert MappedAsCopy(r.after.attachments, RStripSlash(dest.url), r.out.destAttachmentId);
  }

  /** The handler as written uploads the copy back. Attachment "10010" of TEST-1
      on A is uploaded to B's TEST-7 and comes back as "10020". B's notification
      about "10020" reaches the B-to-A path, where the guard looks up
      ("http://b", "10020"): that pair is stored only in destination columns, so
      the copy is downloaded from B, uploaded to TEST-1 on A as "10030", and
      recorded as a new source row. The corrected guard ignores the same event. */
  lemma SourceGuardMissesEcho()
    ensures var s := Tables([IssueRow(Some("TEST-1"), Some("TEST-7"))], map[]);
            var a := Endpoint("http://a", "token-a", "TEST");
            var b := Endpoint("http://b/", "token-b", "TEST");
            var att := AttachmentObj(Some("10010"), Some("f.txt"), None, Some("http://a/attachment/10010"), false);
            var p := Payload(EventText("attachment_created"), Some("TEST-1"), None, None, None, None,
                             Absent, Absent, Some(att), Missing, Missing);
            var first := AttachmentCreated(SourceKeyOnly, s, p, a, b, AtoB, Downloaded,
                                           UploadResponse(200, ListBody([Some("10020")]), ""));
            var copy := AttachmentObj(Some("10020"), Some("f.txt"), None, Some("http://b/attachment/10020"), false);
            var echo := Payload(EventText("attachment_created"), Some("TEST-7"), None, None, None, None,
                                Absent, Absent, Some(copy), Missing, Missing);
            var back := AttachmentCreated(SourceKeyOnly, first.after, echo, b, a, BtoA, Downloaded,
                                          UploadResponse(200, ListBody([Some("10030")]), ""));
            first.out == Uploaded(200, "10020")
            && back.out == Uploaded(200, "10030")
            && back.sent == [DownloadContent(b, "http://b/attachment/10020"), UploadFile(a, "TEST-1", "f.txt")]
            && AttachmentKey("http://b", "10020") in back.after.attachments
            && AttachmentCreated(SourceOrCopy, first.after, echo, b, a, BtoA, Downloaded,
                                 UploadResponse(200, ListBody([Some("10030")]), ""))
               == Step(Ignored(AttachmentAlreadyMapped), [], first.after)
  {
    assert RStripSlash("http://b/") == "http://b";
    assert RStripSlash("http://a") == "http://a";
  }
}
