/** The inbound endpoints: classify the event name and hand the payload to one handler. */
module Dispatch {
  import opened Basics
  import opened Text
  import opened MappingTables
  import opened Events
  import opened Handlers

  /** The handler an event goes to. */
  datatype Route = ToAttachment | ToComment | ToWorklog | ToIssueCreated | NoRoute

  /** The classification `webhook_a_to_b` and `webhook_b_to_a` share, in their order:
      attachment events first (only creations are handled), then comments,
      then worklogs, then the exact issue-created event; the rest is ignored. */
  function Classify(e: EventField): (r: Route)
    ensures r == ToAttachment <==> e.EventText? && StartsWith(e.name, "attachment_created")
    ensures r == ToComment <==> e.EventText? && StartsWith(e.name, "comment_")
    ensures r == ToWorklog <==> e.EventText? && StartsWith(e.name, "worklog_")
    ensures r == ToIssueCreated <==> e == EventText("jira:issue_created")
  {
    if e.EventText? then EventPrefixes(e.name); ClassifyName(e.name)
    else NoRoute
  }

  /** `Classify` on an event name, the checks in the order the source makes them. */
  function ClassifyName(name: string): Route {
    if StartsWith(name, "attachment_") then
      if name == "attachment_created" || StartsWith(name, "attachment_created") then ToAttachment
      else NoRoute
    else if StartsWith(name, "comment_") then ToComment
    else if StartsWith(name, "worklog_") then ToWorklog
    else if name == "jira:issue_created" then ToIssueCreated
    else NoRoute
  }

  /** The prefixes the dispatcher tests never overlap, except that every
      attachment creation is an attachment event. */
  lemma EventPrefixes(name: string)
    ensures StartsWith(name, "attachment_created") ==> StartsWith(name, "attachment_")
    ensures StartsWith(name, "comment_") ==> !StartsWith(name, "attachment_") && !StartsWith(name, "worklog_")
    ensures StartsWith(name, "worklog_") ==> !StartsWith(name, "attachment_")
    ensures name == "jira:issue_created" ==>
              !StartsWith(name, "attachment_") && !StartsWith(name, "comment_") && !StartsWith(name, "worklog_")
  {
    if StartsWith(name, "attachment_created") {
      assert name[..11] == name[..18][..11];
    }
    if |name| > 0 {
      if StartsWith(name, "comment_") { assert name[0] == name[..8][0] == 'c'; }
      if StartsWith(name, "worklog_") { assert name[0] == name[..8][0] == 'w'; }
      if StartsWith(name, "attachment_") { assert name[0] == name[..11][0] == 'a'; }
    }
  }

  /** The tracker events come from: A on the A-to-B path, B on the other. */
  function SourceOf(dir: Direction, a: Endpoint, b: Endpoint): Endpoint {
    if dir == AtoB then a else b
  }

  /** The tracker written to: B on the A-to-B path, A on the other. */
  function DestOf(dir: Direction, a: Endpoint, b: Endpoint): Endpoint {
    if dir == AtoB then b else a
  }

  /** `webhook_a_to_b` (dir = AtoB) and `webhook_b_to_a` (dir = BtoA), after
      the payload has been decoded, with the attachment handler under the
      duplicate guard `g`: `SourceKeyOnly` is the program as written,
      `SourceOrCopy` the corrected one. */
  function Webhook(g: AttachmentGuard, s: Tables, dir: Direction, a: Endpoint, b: Endpoint, p: Payload, remote: Remote): (r: Step)
    ensures Classify(p.webhookEvent) == NoRoute ==> r == Step(Ignored(NoReason), [], s)
    ensures Classify(p.webhookEvent) == ToAttachment ==>
              r == AttachmentCreated(g, s, p, SourceOf(dir, a, b), DestOf(dir, a, b), dir,
                                     remote.download, remote.upload)
    ensures Classify(p.webhookEvent) == ToComment ==> r == CommentEvent(s, p, DestOf(dir, a, b), dir, remote.postCode)
    ensures Classify(p.webhookEvent) == ToWorklog ==> r == WorklogEvent(s, p, DestOf(dir, a, b), dir, remote.postCode)
    ensures Classify(p.webhookEvent) == ToIssueCreated ==> r == IssueCreated(s, p, DestOf(dir, a, b), dir, remote.create)
    ensures forall q :: q in r.sent ==>
              q.endpoint == (if q.DownloadContent? then SourceOf(dir, a, b) else DestOf(dir, a, b))
    ensures |r.sent| <= 2
    ensures r.after.issues != s.issues ==> Classify(p.webhookEvent) == ToIssueCreated && r.out.Created?
    ensures r.after.attachments != s.attachments ==> Classify(p.webhookEvent) == ToAttachment && r.out.Uploaded?
  {
    var source := SourceOf(dir, a, b);
    var dest := DestOf(dir, a, b);
    match Classify(p.webhookEvent)
    case ToAttachment => AttachmentCreated(g, s, p, source, dest, dir, remote.download, remote.upload)
    case ToComment => CommentEvent(s, p, dest, dir, remote.postCode)
    case ToWorklog => WorklogEvent(s, p, dest, dir, remote.postCode)
    case ToIssueCreated => IssueCreated(s, p, dest, dir, remote.create)
    case NoRoute => Step(Ignored(NoReason), [], s)
  }

  /** Attachment events other than creations are ignored, whatever follows the prefix. */
  lemma OtherAttachmentEventsIgnored(name: string)
    requires StartsWith(name, "attachment_") && !StartsWith(name, "attachment_created")
    ensures Classify(EventText(name)) == NoRoute
  {
  }

  /** Every event keeps `issue_map` one-to-one. */
  lemma WebhookKeepsOneToOne(g: AttachmentGuard, s: Tables, dir: Direction, a: Endpoint, b: Endpoint, p: Payload, remote: Remote)
    requires OneToOne(s.issues)
    ensures OneToOne(Webhook(g, s, dir, a, b, p, remote).after.issues)
  {
    if Classify(p.webhookEvent) == ToIssueCreated {
      IssueCreatedKeepsOneToOne(s, p, DestOf(dir, a, b), dir, remote.create);
    }
  }
}
