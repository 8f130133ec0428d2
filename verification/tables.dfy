/** The two relations of the mapping store, as values, with the semantics of
    SQLite's `INSERT OR REPLACE` and of the `SELECT ... WHERE` lookups. */
module MappingTables {
  import opened Basics

  /** A column of `issue_map`: `jira_a_key` or `jira_b_key`. */
  datatype Side = SideA | SideB {
    function Other(): Side {
      if this == SideA then SideB else SideA
    }
  }

  /** A row of `issue_map`. Either column may be NULL. */
  datatype IssueRow = IssueRow(a: Option<string>, b: Option<string>) {
    function Col(side: Side): Option<string> {
      if side == SideA then a else b
    }
  }

  /** The row holding `key` in column `side` and `partner` in the other column. */
  function Pair(side: Side, key: Option<string>, partner: Option<string>): (row: IssueRow)
    ensures row.Col(side) == key && row.Col(side.Other()) == partner
  {
    if side == SideA then IssueRow(key, partner) else IssueRow(partner, key)
  }

  /** Two rows violate one of the UNIQUE constraints together: they share a
      non-NULL `jira_a_key` or a non-NULL `jira_b_key` (NULLs never collide). */
  predicate Clash(r: IssueRow, s: IssueRow) {
    (r.a.Some? && r.a == s.a) || (r.b.Some? && r.b == s.b)
  }

  /** The UNIQUE constraints on both columns: no two rows clash, so every
      non-NULL key appears in at most one row. */
  ghost predicate OneToOne(rows: seq<IssueRow>) {
    forall i, j :: 0 <= i < j < |rows| ==> !Clash(rows[i], rows[j])
  }

  /** The deletion half of `INSERT OR REPLACE`: every row that clashes with `row` goes. */
  function DropConflicts(rows: seq<IssueRow>, row: IssueRow): (r: seq<IssueRow>)
    ensures forall x :: x in r <==> x in rows && !Clash(x, row)
  {
    if rows == [] then []
    else (if Clash(rows[0], row) then [] else [rows[0]]) + DropConflicts(rows[1..], row)
  }

  /** `INSERT OR REPLACE INTO issue_map`: delete the clashing rows, then insert. */
  function Upsert(rows: seq<IssueRow>, row: IssueRow): seq<IssueRow> {
    DropConflicts(rows, row) + [row]
  }

  /** `SELECT <other column> FROM issue_map WHERE <side column> = ?` followed by
      `fetchone()`: the partner of the first row holding `key`, or None when no row
      does or when that row's partner is NULL. A NULL key matches nothing. */
  function Lookup(rows: seq<IssueRow>, side: Side, key: Option<string>): (r: Option<string>)
    ensures key.None? ==> r.None?
    ensures r.Some? ==> Pair(side, key, r) in rows
  {
    if key.None? || rows == [] then None
    else if rows[0].Col(side) == key then rows[0].Col(side.Other())
    else Lookup(rows[1..], side, key)
  }

  /** Removing rows keeps the table one-to-one. */
  lemma {:induction false} DropConflictsOneToOne(rows: seq<IssueRow>, row: IssueRow)
    requires OneToOne(rows)
    ensures OneToOne(DropConflicts(rows, row))
  {
    if rows != [] {
      var tail := rows[1..];
      assert OneToOne(tail) by {
        forall i, j | 0 <= i < j < |tail| ensures !Clash(tail[i], tail[j]) {
          assert tail[i] == rows[i + 1] && tail[j] == rows[j + 1];
        }
      }
      DropConflictsOneToOne(tail, row);
      var rest := DropConflicts(tail, row);
      if !Clash(rows[0], row) {
        var r := [rows[0]] + rest;
        forall i, j | 0 <= i < j < |r| ensures !Clash(r[i], r[j]) {
          if i == 0 {
            assert r[j] in tail;
            var k :| 0 <= k < |tail| && tail[k] == r[j];
            assert rows[k + 1] == r[j];
          } else {
            assert r[i] == rest[i - 1] && r[j] == rest[j - 1];
          }
        }
      }
    }
  }

  /** Upsert keeps the table one-to-one: the invariant that the UNIQUE
      constraints maintain. */
  lemma {:induction false} UpsertOneToOne(rows: seq<IssueRow>, row: IssueRow)
    requires OneToOne(rows)
    ensures OneToOne(Upsert(rows, row))
  {
    var d := DropConflicts(rows, row);
    DropConflictsOneToOne(rows, row);
    var u := d + [row];
    forall i, j | 0 <= i < j < |u| ensures !Clash(u[i], u[j]) {
      if j == |d| {
        assert u[i] in d;
        assert !Clash(u[i], row);
      } else {
        assert u[i] == d[i] && u[j] == d[j];
      }
    }
  }

  /** A lookup over a concatenation answers from the first part when a row
      there holds the key, and from the second part otherwise. */
  lemma {:induction false} LookupConcat(xs: seq<IssueRow>, ys: seq<IssueRow>, side: Side, key: Option<string>)
    ensures Lookup(xs + ys, side, key)
         == if exists x :: x in xs && x.Col(side) == key then Lookup(xs, side, key) else Lookup(ys, side, key)
  {
    if xs == [] {
      assert xs + ys == ys;
    } else if key.Some? {
      assert (xs + ys)[0] == xs[0];
      assert (xs + ys)[1..] == xs[1..] + ys;
      LookupConcat(xs[1..], ys, side, key);
      if xs[0].Col(side) != key {
        assert (exists x :: x in xs && x.Col(side) == key) <==> (exists x :: x in xs[1..] && x.Col(side) == key);
      }
    }
  }

  /** Under the UNIQUE constraints a lookup is exact: it yields `v` for `k`
      exactly when the row pairing them is stored. */
  lemma {:induction false} LookupExact(rows: seq<IssueRow>, side: Side, k: string, v: string)
    requires OneToOne(rows)
    ensures Lookup(rows, side, Some(k)) == Some(v) <==> Pair(side, Some(k), Some(v)) in rows
  {
    var row := Pair(side, Some(k), Some(v));
    if rows != [] {
      var tail := rows[1..];
      assert OneToOne(tail) by {
        forall i, j | 0 <= i < j < |tail| ensures !Clash(tail[i], tail[j]) {
          assert tail[i] == rows[i + 1] && tail[j] == rows[j + 1];
        }
      }
      LookupExact(tail, side, k, v);
    }
  }

  /** After an upsert, each non-NULL key of the new row finds its partner. */
  lemma {:induction false} UpsertFinds(rows: seq<IssueRow>, row: IssueRow, side: Side)
    requires row.Col(side).Some?
    ensures Lookup(Upsert(rows, row), side, row.Col(side)) == row.Col(side.Other())
  {
    var d := DropConflicts(rows, row);
    LookupConcat(d, [row], side, row.Col(side));
  }

  /** `INSERT OR REPLACE` touches no other key except through the replaced
      row: a key `k` not in the new row keeps its partner, unless that partner
      is the new row's other key, in which case `k`'s row was deleted. */
  lemma {:induction false} DropConflictsFrame(rows: seq<IssueRow>, row: IssueRow, side: Side, k: string)
    requires OneToOne(rows)
    requires row.Col(side) != Some(k)
    ensures var before := Lookup(rows, side, Some(k));
              Lookup(DropConflicts(rows, row), side, Some(k))
              == if before.Some? && before == row.Col(side.Other()) then None else before
  {
    if rows != [] {
      var tail := rows[1..];
      assert OneToOne(tail) by {
        forall i, j | 0 <= i < j < |tail| ensures !Clash(tail[i], tail[j]) {
          assert tail[i] == rows[i + 1] && tail[j] == rows[j + 1];
        }
      }
      DropConflictsFrame(tail, row, side, k);
      var rest := DropConflicts(tail, row);
      LookupConcat(if Clash(rows[0], row) then [] else [rows[0]], rest, side, Some(k));
      if rows[0].Col(side) == Some(k) {
        // no later row holds k, so the tail answers None
        LookupConcat(tail, [], side, Some(k));
        assert tail + [] == tail;
        forall x | x in tail ensures x.Col(side) != Some(k) {
          var j :| 0 <= j < |tail| && tail[j] == x;
          assert rows[j + 1] == x;
          assert !Clash(rows[0], rows[j + 1]);
        }
      }
    }
  }

  /** The frame of an upsert, for every key outside the new row. */
  lemma {:induction false} UpsertFrame(rows: seq<IssueRow>, row: IssueRow, side: Side, k: string)
    requires OneToOne(rows)
    requires row.Col(side) != Some(k)
    ensures var before := Lookup(rows, side, Some(k));
              Lookup(Upsert(rows, row), side, Some(k))
              == if before.Some? && before == row.Col(side.Other()) then None else before
  {
    DropConflictsFrame(rows, row, side, k);
    var d := DropConflicts(rows, row);
    LookupConcat(d, [row], side, Some(k));
    if !(exists x :: x in d && x.Col(side) == Some(k)) {
      LookupConcat(d, [], side, Some(k));
      assert d + [] == d;
    }
  }

  // ---- attachment_map ----

  /** The primary key of `attachment_map`: (source_jira, source_attachment_id). */
  datatype AttachmentKey = AttachmentKey(sourceJira: string, sourceAttachmentId: string)

  /** The other columns of an `attachment_map` row. */
  datatype AttachmentRow = AttachmentRow(sourceIssueKey: string, destJira: string,
                                         destIssueKey: string, destAttachmentId: string)

  /** What `find_mapped_attachment` returns: (dest_jira, dest_issue_key, dest_attachment_id). */
  datatype AttachmentTarget = AttachmentTarget(destJira: string, destIssueKey: string, destAttachmentId: string)

  /** `find_mapped_attachment` on the relation as a value. */
  function FindAttachment(m: map<AttachmentKey, AttachmentRow>, sourceJira: string, sourceAttachmentId: string)
    : (r: Option<AttachmentTarget>)
    ensures r.Some? <==> AttachmentKey(sourceJira, sourceAttachmentId) in m
    ensures r.Some? ==> var row := m[AttachmentKey(sourceJira, sourceAttachmentId)];
                        r.value == AttachmentTarget(row.destJira, row.destIssueKey, row.destAttachmentId)
  {
    var key := AttachmentKey(sourceJira, sourceAttachmentId);
    if key in m then
      Some(AttachmentTarget(m[key].destJira, m[key].destIssueKey, m[key].destAttachmentId))
    else None
  }

  /** Both relations of the store together, as one value. */
  datatype Tables = Tables(issues: seq<IssueRow>, attachments: map<AttachmentKey, AttachmentRow>)
}
