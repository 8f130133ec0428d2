/** Loop prevention for comments and worklogs: direction-specific provenance tags. */
module SyncTags {
  import opened Basics
  import opened Text

  /** Appended to text relayed from A to B. */
  const TagAtoB: string := "[SyncedFromA]"
  /** Appended to text relayed from B to A. */
  const TagBtoA: string := "[SyncedFromB]"

  /** The tag a relay in direction `dir` appends. */
  function TagFor(dir: Direction): string {
    if dir == AtoB then TagAtoB else TagBtoA
  }

  /** `is_synced_from_a`: the text is non-empty and carries the A-to-B tag. */
  predicate IsSyncedFromA(text: string) {
    |text| > 0 && Occurs(TagAtoB, text)
  }

  /** `is_synced_from_b`: the text is non-empty and carries the B-to-A tag. */
  predicate IsSyncedFromB(text: string) {
    |text| > 0 && Occurs(TagBtoA, text)
  }

  /** The filter a handler in direction `dir` applies to its source text:
      text carrying the opposite direction's tag is the echo of an earlier relay. */
  predicate IsEcho(dir: Direction, text: string) {
    if dir == AtoB then IsSyncedFromB(text) else IsSyncedFromA(text)
  }

  /** The emptiness test in `is_synced_from_a/b` never decides anything:
      a tag is non-empty, so only a non-empty text can contain it. */
  lemma EchoIsTagOccurrence(dir: Direction, text: string)
    ensures IsEcho(dir, text) <==> Occurs(TagFor(dir.Opposite()), text)
  {
    if Occurs(TagFor(dir.Opposite()), text) {
      OccursLength(TagFor(dir.Opposite()), text);
    }
  }

  /** `append_sync_tag`: a missing or empty body counts as "", and the tag is
      appended on a new paragraph only when it is not already there. */
  function AppendSyncTag(body: string, tag: string): (r: string)
    ensures Occurs(tag, r)
    ensures StartsWith(r, body)
    ensures Occurs(tag, body) ==> r == body
    ensures !Occurs(tag, body) ==> r == body + "\n\n" + tag
  {
    if Occurs(tag, body) then body
    else
      OccursAtEnd(body + "\n\n", tag);
      body + "\n\n" + tag
  }

  /** Tagging twice is tagging once. */
  lemma AppendSyncTagIdempotent(body: string, tag: string)
    ensures AppendSyncTag(AppendSyncTag(body, tag), tag) == AppendSyncTag(body, tag)
  {
  }

  /** Text relayed in one direction is recognised as an echo by the handler
      of the other direction, so a relayed comment or worklog is never relayed back. */
  lemma {:induction false} RelayedTextIsEcho(dir: Direction, body: string)
    ensures IsEcho(dir.Opposite(), AppendSyncTag(body, TagFor(dir)))
  {
    var r := AppendSyncTag(body, TagFor(dir));
    OccursLength(TagFor(dir), r);
  }
}
