/** End-to-end runs of the two inbound endpoints on concrete events. */
module Scenarios {
  import opened Basics
  import opened Text
  import opened SyncTags
  import opened MappingTables
  import opened Events
  import opened Handlers
  import opened Dispatch

  /** The A side of the deployment the source configures. */
  const JiraA: Endpoint := Endpoint("http://192.168.43.132:8081", "token-a", "TEST")
  /** The B side. */
  const JiraB: Endpoint := Endpoint("http://192.168.43.134:8081", "token-b", "TEST")

  /** A payload with nothing but an event name and an issue key. */
  function EventFor(name: string, key: string): Payload {
    Payload(EventText(name), Some(key), None, None, None, None, Absent, Absent, None, Missing, Missing)
  }

  /** The answers of a tracker that accepts everything. */
  function Accepting(newKey: string): Remote {
    Remote(CreateReply(201, Some(newKey), ""), 201, Downloaded, UploadResponse(200, ListBody([Some("10020")]), ""))
  }

  /** The tables once TEST-1 on A has been copied to TEST-9 on B. */
  function Linked(): Tables {
    Tables([IssueRow(Some("TEST-1"), Some("TEST-9"))], map[])
  }

  /** The event both issue-creation scenarios deliver. */
  function IssueEvent(): Payload {
    EventFor("jira:issue_created", "TEST-1").(summary := Some("Bug"), description := Some("desc"))
  }

  /** An issue created on A is copied to B with its summary and a tagged
      description, and the pair is recorded. */
  lemma IssueCreatedScenario()
    ensures Webhook(SourceKeyOnly, Tables([], map[]), AtoB, JiraA, JiraB, IssueEvent(), Accepting("TEST-9"))
            == Step(Created(Some("TEST-9")),
                    [CreateIssue(JiraB, "TEST", "Bug", "desc\n\n(Synced from A)", "Task")],
                    Linked())
  {
    assert Classify(IssueEvent().webhookEvent) == ToIssueCreated;
    IssueCreatedOnEmptyTables();
  }

  /** The handler's part of `IssueCreatedScenario`. */
  lemma IssueCreatedOnEmptyTables()
    ensures IssueCreated(Tables([], map[]), IssueEvent(), JiraB, AtoB, CreateReply(201, Some("TEST-9"), ""))
            == Step(Created(Some("TEST-9")),
                    [CreateIssue(JiraB, "TEST", "Bug", "desc\n\n(Synced from A)", "Task")],
                    Linked())
  {
    assert OrEmpty(IssueEvent().description) + ProvenanceNote(AtoB) == "desc\n\n(Synced from A)";
    assert Upsert([], IssueRow(Some("TEST-1"), Some("TEST-9"))) == Linked().issues;
  }

  /** A redelivery of that event answers `already_mapped` without calling B. */
  lemma IssueRedeliveredScenario()
    ensures Webhook(SourceKeyOnly, Linked(), AtoB, JiraA, JiraB, IssueEvent(), Accepting("TEST-10"))
            == Step(AlreadyMapped("TEST-9"), [], Linked())
  {
    assert Classify(EventText("jira:issue_created")) == ToIssueCreated;
  }

  /** A worklog on an issue that was never copied is not relayed. */
  lemma WorklogWithoutMappingScenario()
    ensures var p := EventFor("worklog_created", "TEST-2").(timeSpentSeconds := Whole(3600));
            Webhook(SourceKeyOnly, Linked(), AtoB, JiraA, JiraB, p, Accepting("TEST-9")) == Step(NoMapping, [], Linked())
  {
    assert Classify(EventText("worklog_created")) == ToWorklog;
  }

  /** A comment event on `key` with body `body`. */
  function CommentOn(key: string, body: string): Payload {
    EventFor("comment_created", key).(commentBody := Some(body))
  }

  /** A comment without a tag made on B's copy reaches A as the same text
      plus the B-to-A tag on a new paragraph, and A's notification about that
      new comment is ignored instead of going back to B. */
  lemma CommentRoundTripScenario(body: string)
    requires !Occurs(TagAtoB, body) && !Occurs(TagBtoA, body)
    ensures var relay := Webhook(SourceKeyOnly, Linked(), BtoA, JiraA, JiraB, CommentOn("TEST-9", body), Accepting("unused"));
            relay == Step(Ok(201), [AddComment(JiraA, "TEST-1", body + "\n\n[SyncedFromB]")], Linked())
            && Webhook(SourceKeyOnly, Linked(), AtoB, JiraA, JiraB, CommentOn("TEST-1", relay.sent[0].body), Accepting("unused"))
               == Step(Ignored(NoReason), [], Linked())
  {
    assert Classify(CommentOn("TEST-9", body).webhookEvent) == ToComment;
    CommentRelayedToA(body);
    var echo := CommentOn("TEST-1", body + "\n\n[SyncedFromB]");
    assert Classify(echo.webhookEvent) == ToComment;
    RelayedCommentEchoIgnored(Linked(), echo, JiraB, BtoA, 201);
  }

  /** The handler's part of the relay in `CommentRoundTripScenario`. */
  lemma CommentRelayedToA(body: string)
    requires !Occurs(TagAtoB, body) && !Occurs(TagBtoA, body)
    ensures AppendSyncTag(body, TagBtoA) == body + "\n\n[SyncedFromB]"
    ensures CommentEvent(Linked(), CommentOn("TEST-9", body), JiraA, BtoA, 201)
            == Step(Ok(201), [AddComment(JiraA, "TEST-1", body + "\n\n[SyncedFromB]")], Linked())
  {
    var tail := "\n\n" + TagBtoA;
    assert tail == "\n\n[SyncedFromB]";
    assert AppendSyncTag(body, TagBtoA) == body + tail;
    assert !IsEcho(BtoA, body);
    assert Counterpart(Linked().issues, BtoA, Some("TEST-9")) == Some("TEST-1");
    assert Relay(Linked().issues, BtoA, Some("TEST-9"), body) == Forward("TEST-1", AppendSyncTag(body, TagBtoA));
  }

  /** An `attachment` object whose only key holds null is a non-empty dict, so it
      is kept even when `attachments` lists a usable attachment, and the event
      is ignored for its missing content URL without any call. */
  lemma NullContentScenario()
    ensures var good := AttachmentObj(Some("10010"), Some("f.txt"), None, Some("http://192.168.43.132:8081/a/10010"), false);
            var p := EventFor("attachment_created", "TEST-1").(attachment := Some(AttachmentObj(None, None, None, None, true)),
                                                               attachments := ListOf([good]));
            Webhook(SourceKeyOnly, Linked(), AtoB, JiraA, JiraB, p, Accepting("unused"))
            == Step(Ignored(NoContentUrl), [], Linked())
  {
    assert Classify(EventText("attachment_created")) == ToAttachment;
  }
}
