/** The mapping store: the two tables the handlers read and write in place. */
module Store {
  import opened Basics
  import opened MappingTables

  class MappingStore {
    /** `issue_map`, in insertion order. */
    var issueRows: seq<IssueRow>
    /** `attachment_map`, keyed by its primary key. */
    var attachmentRows: map<AttachmentKey, AttachmentRow>

    /** The UNIQUE constraints on `jira_a_key` and `jira_b_key`. */
    ghost predicate Valid()
      reads this
    {
      OneToOne(issueRows)
    }

    /** Both tables as one value. */
    function Snapshot(): Tables
      reads this
    {
      Tables(issueRows, attachmentRows)
    }

    /** `ensure_db` on a fresh database: both tables exist and are empty. */
    constructor ()
      ensures Valid()
      ensures issueRows == [] && attachmentRows == map[]
    {
      issueRows := [];
      attachmentRows := map[];
    }

    /** `find_mapped_to_b`: the B key paired with an A key. */
    function FindMappedToB(aKey: Option<string>): (r: Option<string>)
      reads this
      ensures aKey.None? ==> r.None?
      ensures r.Some? ==> IssueRow(aKey, r) in issueRows
    {
      Lookup(issueRows, SideA, aKey)
    }

    /** `find_mapped_to_a`: the A key paired with a B key. */
    function FindMappedToA(bKey: Option<string>): (r: Option<string>)
      reads this
      ensures bKey.None? ==> r.None?
      ensures r.Some? ==> IssueRow(r, bKey) in issueRows
    {
      Lookup(issueRows, SideB, bKey)
    }

    /** `map_issue`: INSERT OR REPLACE under both UNIQUE constraints. Every row
        sharing either key is replaced, so both keys then find each other and the
        table stays one-to-one. */
    method MapIssue(aKey: Option<string>, bKey: Option<string>)
      requires Valid()
      modifies this
      ensures Valid()
      ensures issueRows == Upsert(old(issueRows), IssueRow(aKey, bKey))
      ensures attachmentRows == old(attachmentRows)
      ensures aKey.Some? ==> FindMappedToB(aKey) == bKey
      ensures bKey.Some? ==> FindMappedToA(bKey) == aKey
    {
      var row := IssueRow(aKey, bKey);
      UpsertOneToOne(issueRows, row);
      if aKey.Some? {
        UpsertFinds(issueRows, row, SideA);
      }
      if bKey.Some? {
        UpsertFinds(issueRows, row, SideB);
      }
      issueRows := Upsert(issueRows, row);
    }

    /** `find_mapped_attachment`. */
    function FindMappedAttachment(sourceJira: string, sourceAttachmentId: string): Option<AttachmentTarget>
      reads this
    {
      FindAttachment(attachmentRows, sourceJira, sourceAttachmentId)
    }

    /** `map_attachment`: INSERT OR REPLACE on the primary key (source_jira, source_attachment_id). */
    method MapAttachment(sourceJira: string, sourceIssueKey: string, sourceAttachmentId: string,
                         destJira: string, destIssueKey: string, destAttachmentId: string)
      modifies this
      ensures attachmentRows == old(attachmentRows)[AttachmentKey(sourceJira, sourceAttachmentId) :=
                                  AttachmentRow(sourceIssueKey, destJira, destIssueKey, destAttachmentId)]
      ensures issueRows == old(issueRows)
      ensures FindMappedAttachment(sourceJira, sourceAttachmentId)
              == Some(AttachmentTarget(destJira, destIssueKey, destAttachmentId))
    {
      attachmentRows := attachmentRows[AttachmentKey(sourceJira, sourceAttachmentId) :=
                                       AttachmentRow(sourceIssueKey, destJira, destIssueKey, destAttachmentId)];
    }
  }
}
