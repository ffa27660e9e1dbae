/**
 The paged backfill of apps/api/scripts/backfill-evidence-manifestkey.ts. The evidence table is the sequence of its
 rows in id order; an id is its rank in that order. Metadata is null or a JSON object.
 */
module Backfill {
  import opened Wrappers

  datatype Json = Str(s: string) | OtherJson(text: string)

  type Metadata = map<string, Json>

  datatype Row = Row(
    id: int, automated: bool, tenantId: string, sourceType: Option<string>, sourceId: Option<string>,
    metadata: Option<Metadata>)

  datatype Bucket = FromSourceId | FromSourceType | Unchanged

  // ---------------------------------------------------------------- one row

  function Meta(row: Row): Metadata {
    if row.metadata.Some? then row.metadata.value else map[]
  }

  predicate HasManifestKey(row: Row) {
    "manifestKey" in Meta(row) && Meta(row)["manifestKey"].Str? && Meta(row)["manifestKey"].s != ""
  }

  predicate IsKeyChar(c: char) { 'a' <= c <= 'z' || '0' <= c <= '9' || c == '_' || c == '.' || c == '-' }

  predicate IsKey(s: string) { s != "" && forall c <- s :: IsKeyChar(c) }

  /** Where the first "::" begins. */
  function FirstDoubleColon(s: string): (r: Option<nat>)
    ensures r.Some? ==> r.value + 2 <= |s| && s[r.value] == ':' && s[r.value + 1] == ':'
    ensures r.Some? ==> forall i: nat :: i < r.value ==> !(s[i] == ':' && s[i + 1] == ':')
    ensures r.None? ==> forall i: nat :: i + 1 < |s| ==> !(s[i] == ':' && s[i + 1] == ':')
  {
    if |s| < 2 then None
    else if s[0] == ':' && s[1] == ':' then Some(0)
    else
      var rest := FirstDoubleColon(s[1..]);
      assert forall i: nat :: 0 < i < |s| ==> s[i] == s[1..][i - 1];
      if rest.Some? then Some(rest.value + 1) else None
  }

  /** The head of a namespaced source id, when it is a manifest key. */
  function KeyInSourceId(sourceId: Option<string>): Option<string> {
    if sourceId.None? || FirstDoubleColon(sourceId.value).None? then None
    else
      var head := sourceId.value[..FirstDoubleColon(sourceId.value).value];
      if IsKey(head) then Some(head) else None
  }

  function Inferred(row: Row): (key: Option<string>)
    ensures key != Some("")
  {
    if KeyInSourceId(row.sourceId).Some? then KeyInSourceId(row.sourceId)
    else if row.sourceType.Some? && row.sourceType.value != "" then row.sourceType
    else None
  }

  function BucketOf(row: Row): (b: Bucket)
    ensures !b.Unchanged? ==> Inferred(row).Some?
  {
    if HasManifestKey(row) || Inferred(row).None? then Unchanged
    else if KeyInSourceId(row.sourceId).Some? then FromSourceId
    else FromSourceType
  }

  function FixedMetadata(row: Row, at: string): Metadata
    requires Inferred(row).Some?
  {
    Meta(row)["manifestKey" := Str(Inferred(row).value)]
      ["backfilledManifestKeyFrom" := Str(if KeyInSourceId(row.sourceId).Some? then "sourceId" else "sourceType")]
      ["backfilledAt" := Str(at)]
  }

  /** What the script makes of a row it visits, writing the time `at`. */
  function Fix(row: Row, at: string): Row {
    if BucketOf(row).Unchanged? then row else row.(metadata := Some(FixedMetadata(row, at)))
  }

  // ---------------------------------------------------------------- the table

  predicate Sorted(rows: seq<Row>) {
    forall i, j :: 0 <= i < j < |rows| ==> rows[i].id < rows[j].id
  }

  function Automated(rows: seq<Row>): seq<Row> {
    if rows == [] then [] else if rows[0].automated then [rows[0]] + Automated(rows[1..]) else Automated(rows[1..])
  }

  /** The rows from the one with this id on. */
  function From(rows: seq<Row>, id: int): seq<Row> {
    if rows == [] || rows[0].id == id then rows else From(rows[1..], id)
  }

  function Skip(rows: seq<Row>, n: nat): seq<Row> { if n <= |rows| then rows[n..] else [] }

  function Take(rows: seq<Row>, n: nat): seq<Row> { if n <= |rows| then rows[..n] else rows }

  /** findMany over the automated rows, with its cursor, skip and take. */
  function Page(rows: seq<Row>, cursor: Option<int>, skip: nat, take: nat): seq<Row> {
    Take(Skip(if cursor.Some? then From(Automated(rows), cursor.value) else Automated(rows), skip), take)
  }

  function Updated(rows: seq<Row>, id: int, m: Metadata): seq<Row> {
    seq(|rows|, i requires 0 <= i < |rows| => if rows[i].id == id then rows[i].(metadata := Some(m)) else rows[i])
  }

  predicate Above(r: Row, cursor: Option<int>) {
    cursor.Some? ==> r.id > cursor.value
  }

  /** The page is the automated rows of the smallest ids above the cursor, in id order, as many as asked for. */
  ghost predicate IsNextPage(rows: seq<Row>, cursor: Option<int>, take: nat, page: seq<Row>) {
    && Sorted(page) && |page| <= take
    && (forall r <- page :: r in rows && r.automated && Above(r, cursor))
    && (forall r <- rows :: r.automated && Above(r, cursor) && r !in page ==>
          |page| == take && forall p <- page :: p.id < r.id)
  }

  /** With the automated rows cut in three at the cursor and after the page, the page is the next page. */
  lemma PartIsNextPage(rows: seq<Row>, cursor: Option<int>, take: nat, before: seq<Row>, page: seq<Row>, rest: seq<Row>)
    requires Sorted(rows) && Automated(rows) == before + (page + rest)
    requires cursor == if before == [] then None else Some(before[|before| - 1].id)
    requires |page| <= take && (rest != [] ==> |page| == take)
    ensures IsNextPage(rows, cursor, take, page)
  {
    hide Automated, Sorted, IsNextPage, AllBelow, AreTheAutomated, IsCutAt;
    AutomatedAreTheRows(rows);
    SortedParts(before, page + rest);
    SortedParts(page, rest);
    AboveTheLast(before, page + rest, cursor);
    FirstPartIsNextPage(rows, cursor, take, before, page, rest);
  }

  lemma CutInThree(all: seq<Row>, k: nat, take: nat) returns (before: seq<Row>, page: seq<Row>, rest: seq<Row>)
    requires k <= |all|
    ensures all == before + (page + rest) && page == Take(all[k..], take) && |before| == k
    ensures k > 0 ==> before[k - 1] == all[k - 1]
    ensures |page| <= take && (rest != [] ==> |page| == take)
  {
    var n := if take <= |all| - k then take else |all| - k;
    before, page, rest := all[..k], all[k..][..n], all[k..][n..];
    assert all[k..] == page + rest;
  }

  ghost predicate AllBelow(xs: seq<Row>, ys: seq<Row>) {
    forall x, y :: x in xs && y in ys ==> x.id < y.id
  }

  ghost predicate AreTheAutomated(all: seq<Row>, rows: seq<Row>) {
    forall r :: r in all <==> r in rows && r.automated
  }

  lemma AutomatedAreTheRows(rows: seq<Row>)
    requires Sorted(rows)
    ensures Sorted(Automated(rows)) && AreTheAutomated(Automated(rows), rows)
  {
    AutomatedIsSorted(rows);
  }

  lemma FirstPartIsNextPage(rows: seq<Row>, cursor: Option<int>, take: nat, before: seq<Row>, page: seq<Row>,
      rest: seq<Row>)
    requires AreTheAutomated(before + (page + rest), rows) && IsCutAt(before, page + rest, cursor)
    requires Sorted(page) && AllBelow(page, rest) && |page| <= take && (rest != [] ==> |page| == take)
    ensures IsNextPage(rows, cursor, take, page)
  {
    hide Sorted, Above;
    forall r | r in page ensures r in before + (page + rest) && r in page + rest {}
    forall r | r in rows && r.automated && Above(r, cursor) && r !in page
      ensures r in rest
    {
      assert r in before + (page + rest);
    }
  }

  lemma SortedParts(xs: seq<Row>, ys: seq<Row>)
    requires Sorted(xs + ys)
    ensures Sorted(xs) && Sorted(ys) && AllBelow(xs, ys)
  {
    var all := xs + ys;
    assert forall i :: 0 <= i < |ys| ==> all[|xs| + i] == ys[i];
    assert forall i :: 0 <= i < |xs| ==> all[i] == xs[i];
  }

  ghost predicate IsCutAt(xs: seq<Row>, ys: seq<Row>, cursor: Option<int>) {
    forall r :: r in xs + ys ==> (Above(r, cursor) <==> r in ys)
  }

  /** Of a table cut in two, the second part is what lies above the last row of the first. */
  lemma AboveTheLast(xs: seq<Row>, ys: seq<Row>, cursor: Option<int>)
    requires Sorted(xs) && AllBelow(xs, ys)
    requires cursor == if xs == [] then None else Some(xs[|xs| - 1].id)
    ensures IsCutAt(xs, ys, cursor)
  {
    if xs != [] { assert xs[|xs| - 1] in xs; }
  }

  /** Cursor, skip and take together ask for the next page: the first when there is no cursor, the one after the row
      the cursor names otherwise. */
  lemma PageIsTheNextPage(rows: seq<Row>, cursor: Option<int>, take: nat)
    requires Sorted(rows) && (cursor.Some? ==> exists r <- rows :: r.automated && r.id == cursor.value)
    ensures IsNextPage(rows, cursor, take, Page(rows, cursor, if cursor.Some? then 1 else 0, take))
  {
    hide Automated, IsNextPage, Sorted, From;
    var all := Automated(rows);
    var k := 0;
    if cursor.Some? { k := CursorPlace(rows, cursor.value); } else { SkipNothing(all); }
    hide Skip, Take;
    var before, page, rest := CutInThree(all, k, take);
    PartIsNextPage(rows, cursor, take, before, page, rest);
  }

  lemma CursorPlace(rows: seq<Row>, id: int) returns (k: nat)
    requires Sorted(rows) && exists r <- rows :: r.automated && r.id == id
    ensures 0 < k <= |Automated(rows)| && Automated(rows)[k - 1].id == id
    ensures Skip(From(Automated(rows), id), 1) == Automated(rows)[k..]
  {
    AutomatedIsSorted(rows);
    hide Automated, Sorted, Skip, From;
    var r :| r in rows && r.automated && r.id == id;
    k := SkipTheCursor(Automated(rows), r);
  }

  lemma SkipTheCursor(all: seq<Row>, r: Row) returns (k: nat)
    requires Sorted(all) && r in all
    ensures 0 < k <= |all| && all[k - 1] == r && Skip(From(all, r.id), 1) == all[k..]
  {
    var i :| 0 <= i < |all| && all[i] == r;
    k := i + 1;
    FromFindsTheRow(all, i);
    assert all[i..][1..] == all[i + 1..];
  }

  class EvidenceTable {
    var rows: seq<Row>

    constructor (rows: seq<Row>)
      ensures this.rows == rows
    {
      this.rows := rows;
    }

    method FindMany(cursor: Option<int>, skip: nat, take: nat) returns (page: seq<Row>)
      ensures page == Page(rows, cursor, skip, take)
    {
      page := Page(rows, cursor, skip, take);
    }

    method Update(id: int, m: Metadata)
      modifies this
      ensures rows == Updated(old(rows), id, m)
    {
      rows := Updated(rows, id, m);
    }
  }

  // ---------------------------------------------------------------- the summary

  datatype Counts = Counts(total: nat, fromSourceId: nat, fromSourceType: nat, untouched: nat)

  type Summary = map<string, Counts>

  function Bump(summary: Summary, tenant: string, b: Bucket): Summary {
    var c := if tenant in summary then summary[tenant] else Counts(0, 0, 0, 0);
    var c' := c.(total := c.total + 1);
    summary[tenant := match b
                      case FromSourceId => c'.(fromSourceId := c.fromSourceId + 1)
                      case FromSourceType => c'.(fromSourceType := c.fromSourceType + 1)
                      case Unchanged => c'.(untouched := c.untouched + 1)]
  }

  function Tally(rows: seq<Row>): Summary
    decreases |rows|
  {
    if rows == [] then map[]
    else Bump(Tally(rows[..|rows| - 1]), rows[|rows| - 1].tenantId, BucketOf(rows[|rows| - 1]))
  }

  // ---------------------------------------------------------------- the script

  /** The table with its first k automated rows fixed; a row is written at the time `at` gives for it. */
  function FixFirst(rows: seq<Row>, k: nat, at: int -> string): seq<Row> {
    if rows == [] || k == 0 then rows
    else if rows[0].automated then [Fix(rows[0], at(rows[0].id))] + FixFirst(rows[1..], k - 1, at)
    else [rows[0]] + FixFirst(rows[1..], k, at)
  }

  /** The table with every automated row fixed. */
  function FixAll(rows: seq<Row>, at: int -> string): seq<Row> {
    seq(|rows|, i requires 0 <= i < |rows| => if rows[i].automated then Fix(rows[i], at(rows[i].id)) else rows[i])
  }

  /** Pages through the automated rows in batches. `visited` records each row as the loop reads it. */
  method Run(db: EvidenceTable, batch: nat, apply: bool, at: int -> string)
    returns (summary: Summary, processed: nat, ghost visited: seq<Row>)
    requires batch >= 1 && Sorted(db.rows)
    modifies db
    ensures db.rows == if apply then FixAll(old(db.rows), at) else old(db.rows)
    ensures visited == Automated(old(db.rows)) && processed == |visited|
    ensures summary == Tally(Automated(old(db.rows)))
  {
    hide FixFirst, FixAll, Automated, Tally, Bump, Page, BucketOf, Inferred, Updated, Sorted;
    ghost var rows, all := db.rows, Automated(db.rows);
    summary, processed, visited := map[], 0, [];
    var cursor: Option<int> := None;
    NothingVisited(rows, at);
    while true
      invariant processed <= |all| && visited == all[..processed]
      invariant cursor == if processed == 0 then None else Some(all[processed - 1].id)
      invariant db.rows == if apply then FixFirst(rows, processed, at) else rows
      invariant summary == Tally(all[..processed])
      decreases |all| - processed
    {
      var page := db.FindMany(cursor, if cursor.Some? then 1 else 0, batch);
      PageIsNext(rows, if apply then processed else 0, processed, cursor, batch, at);
      if |page| == 0 { break; }
      var j := 0;
      while j < |page|
        invariant 0 <= j <= |page|
        invariant visited == all[..processed + j]
        invariant db.rows == if apply then FixFirst(rows, processed + j, at) else rows
        invariant summary == Tally(all[..processed + j])
      {
        var row := page[j];
        VisitIsNext(rows, processed + j, at);
        if !BucketOf(row).Unchanged? && apply {
          db.Update(row.id, FixedMetadata(row, at(row.id)));
        }
        summary := Bump(summary, row.tenantId, BucketOf(row));
        visited := visited + [row];
        j := j + 1;
      }
      processed := processed + |page|;
      cursor := Some(page[|page| - 1].id);
      if |page| < batch { break; }
    }
    FixedToTheEnd(rows, at);
  }

  /** The automated rows are visited once each, in id order. */
  lemma {:induction false} AutomatedIsSorted(rows: seq<Row>)
    requires Sorted(rows)
    ensures Sorted(Automated(rows)) && forall r :: r in Automated(rows) <==> r in rows && r.automated
    decreases |rows|
  {
    if rows != [] {
      assert forall r :: r in rows <==> r == rows[0] || r in rows[1..];
      AutomatedIsSorted(rows[1..]);
      if rows[0].automated {
        forall i | 0 <= i < |Automated(rows[1..])| ensures rows[0].id < Automated(rows[1..])[i].id {
          assert Automated(rows[1..])[i] in rows[1..];
        }
      }
    }
  }

  lemma {:induction false} AutomatedAfterFixing(rows: seq<Row>, k: nat, at: int -> string)
    requires k <= |Automated(rows)|
    ensures var all, now := Automated(rows), Automated(FixFirst(rows, k, at));
            |now| == |all| && forall i :: 0 <= i < |all| ==>
                now[i] == if i < k then Fix(all[i], at(all[i].id)) else all[i]
    decreases |rows|
  {
    if rows != [] && k > 0 {
      var rest := FixFirst(rows[1..], if rows[0].automated then k - 1 else k, at);
      AutomatedAfterFixing(rows[1..], if rows[0].automated then k - 1 else k, at);
      assert FixFirst(rows, k, at)[1..] == rest;
    }
  }

  lemma {:induction false} FromFindsTheRow(rows: seq<Row>, k: nat)
    requires k < |rows| && forall i :: 0 <= i < k ==> rows[i].id != rows[k].id
    ensures From(rows, rows[k].id) == rows[k..]
    decreases k
  {
    if k > 0 {
      FromFindsTheRow(rows[1..], k - 1);
      assert rows[1..][k - 1..] == rows[k..];
    }
  }

  /** With the first `done` rows visited, whether or not they have been updated, the next page is the next rows. */
  lemma PageIsNext(rows: seq<Row>, k: nat, done: nat, cursor: Option<int>, batch: nat, at: int -> string)
    requires k <= done <= |Automated(rows)| && Sorted(rows)
    requires cursor == if done == 0 then None else Some(Automated(rows)[done - 1].id)
    ensures var all, page := Automated(rows), Page(FixFirst(rows, k, at), cursor, if cursor.Some? then 1 else 0, batch);
            && done + |page| <= |all| && page == all[done..done + |page|]
            && |page| <= batch && (|page| < batch ==> done + |page| == |all|)
  {
    hide Automated, FixFirst, Sorted, Take, From, Skip;
    var all, now := Automated(rows), Automated(FixFirst(rows, k, at));
    UnvisitedStay(rows, k, done, at);
    TakeIsSlice(all, done, batch);
    if done > 0 { SkipAfter(now, done); } else { SkipNothing(now); }
  }

  /** Fixing rows that have been visited leaves the ids and the rows still to come. */
  lemma UnvisitedStay(rows: seq<Row>, k: nat, done: nat, at: int -> string)
    requires k <= done <= |Automated(rows)| && Sorted(rows)
    ensures var all, now := Automated(rows), Automated(FixFirst(rows, k, at));
            |now| == |all| && Sorted(now) && now[done..] == all[done..]
                && (done > 0 ==> now[done - 1].id == all[done - 1].id)
  {
    AutomatedAfterFixing(rows, k, at);
    AutomatedAreTheRows(rows);
    hide Automated, FixFirst, Fix, Sorted, AreTheAutomated;
    SameIds(Automated(rows), Automated(FixFirst(rows, k, at)), k, at);
  }

  lemma SkipNothing(rows: seq<Row>)
    ensures Skip(rows, 0) == rows && rows[0..] == rows
  {
  }

  lemma SkipAfter(rows: seq<Row>, k: nat)
    requires 0 < k <= |rows| && Sorted(rows)
    ensures Skip(From(rows, rows[k - 1].id), 1) == rows[k..]
  {
    FromFindsTheRow(rows, k - 1);
    assert rows[k - 1..][1..] == rows[k..];
  }

  lemma TakeIsSlice(rows: seq<Row>, k: nat, n: nat)
    requires k <= |rows|
    ensures var page := Take(rows[k..], n);
            k + |page| <= |rows| && page == rows[k..k + |page|] && |page| <= n && (|page| < n ==> k + |page| == |rows|)
  {
  }

  lemma NothingVisited(rows: seq<Row>, at: int -> string)
    ensures FixFirst(rows, 0, at) == rows && Tally(Automated(rows)[..0]) == map[]
  {
  }

  lemma SameIds(all: seq<Row>, now: seq<Row>, k: nat, at: int -> string)
    requires Sorted(all)
    requires |now| == |all| && forall i :: 0 <= i < |all| ==>
        now[i] == if i < k then Fix(all[i], at(all[i].id)) else all[i]
    ensures Sorted(now) && forall i :: 0 <= i < |all| ==> now[i].id == all[i].id
  {
  }

  /** What visiting a row does to the table. */
  function Visit(table: seq<Row>, row: Row, at: string): seq<Row> {
    if BucketOf(row).Unchanged? then table else Updated(table, row.id, FixedMetadata(row, at))
  }

  /** Updating the next automated row by its id, if it has to be, takes the table one step on. */
  lemma VisitIsNext(rows: seq<Row>, k: nat, at: int -> string)
    requires Sorted(rows) && k < |Automated(rows)|
    ensures var row := Automated(rows)[k];
            && FixFirst(rows, k + 1, at) == Visit(FixFirst(rows, k, at), row, at(row.id))
            && Automated(rows)[..k + 1] == Automated(rows)[..k] + [row]
            && Tally(Automated(rows)[..k + 1]) == Bump(Tally(Automated(rows)[..k]), row.tenantId, BucketOf(row))
  {
    OneMoreFixed(rows, k, at);
    assert Automated(rows)[..k + 1][..k] == Automated(rows)[..k];
  }

  lemma {:induction false} OneMoreFixed(rows: seq<Row>, k: nat, at: int -> string)
    requires Sorted(rows) && k < |Automated(rows)|
    ensures FixFirst(rows, k + 1, at) == Visit(FixFirst(rows, k, at), Automated(rows)[k], at(Automated(rows)[k].id))
    decreases |rows|
  {
    hide Visit, Fix;
    AutomatedIsSorted(rows);
    var row, rest := Automated(rows)[k], rows[1..];
    if rows[0].automated && k == 0 {
      assert FixFirst(rest, 0, at) == rest;
      VisitFirst(rows, at(row.id));
    } else {
      var before := if rows[0].automated then k - 1 else k;
      var head := if rows[0].automated then Fix(rows[0], at(rows[0].id)) else rows[0];
      assert row == Automated(rest)[before];
      OneMoreFixed(rest, before, at);
      OneStep(rows, k, at);
      OneStep(rows, k + 1, at);
      AutomatedIsSorted(rest);
      assert row in rest;
      FixKeepsTheId(rows[0], at(rows[0].id));
      VisitLater(head, FixFirst(rest, before, at), row, at(row.id));
    }
  }

  lemma FixKeepsTheId(row: Row, at: string)
    ensures Fix(row, at).id == row.id
  {
  }

  lemma OneStep(rows: seq<Row>, k: nat, at: int -> string)
    requires rows != [] && (rows[0].automated ==> k > 0)
    ensures FixFirst(rows, k, at) ==
              if rows[0].automated then [Fix(rows[0], at(rows[0].id))] + FixFirst(rows[1..], k - 1, at)
              else [rows[0]] + FixFirst(rows[1..], k, at)
  {
    if k == 0 { assert FixFirst(rows[1..], 0, at) == rows[1..]; }
  }

  lemma VisitFirst(rows: seq<Row>, at: string)
    requires rows != [] && Sorted(rows)
    ensures Visit(rows, rows[0], at) == [Fix(rows[0], at)] + rows[1..]
  {
  }

  lemma VisitLater(head: Row, rest: seq<Row>, row: Row, at: string)
    requires head.id != row.id
    ensures Visit([head] + rest, row, at) == [head] + Visit(rest, row, at)
  {
  }

  lemma {:induction false} FixedToTheEnd(rows: seq<Row>, at: int -> string)
    ensures FixFirst(rows, |Automated(rows)|, at) == FixAll(rows, at)
    ensures FixFirst(rows, 0, at) == rows
    decreases |rows|
  {
    if rows != [] { FixedToTheEnd(rows[1..], at); }
  }

  // ---------------------------------------------------------------- what the script promises

  /** The characters of a key, spelt out. */
  lemma KeyCharacters(c: char)
    ensures IsKeyChar(c) <==> c in "abcdefghijklmnopqrstuvwxyz" || c in "0123456789" || c in "_.-"
  {
    Letters(c);
    Digits(c);
  }

  lemma Letters(c: char)
    ensures c in "abcdefghijklmnopqrstuvwxyz" <==> 'a' <= c <= 'z'
  {
    var all := "abcdefghijklmnopqrstuvwxyz";
    assert |all| == 26 && forall i: nat :: i < 26 ==> all[i] == 'a' + i as char;
    if 'a' <= c <= 'z' { assert all[c as int - 'a' as int] == c; }
  }

  lemma Digits(c: char)
    ensures c in "0123456789" <==> '0' <= c <= '9'
  {
    var all := "0123456789";
    assert |all| == 10 && forall i: nat :: i < 10 ==> all[i] == '0' + i as char;
    if '0' <= c <= '9' { assert all[c as int - '0' as int] == c; }
  }

  /** The manifest key in a source id is what stands before a "::", if that is a key; a key has no colon, so
      there is at most one such place. */
  lemma KeyInSourceIdIff(s: string, n: nat)
    requires n + 2 <= |s|
    ensures KeyInSourceId(Some(s)) == Some(s[..n]) <==> s[n] == ':' && s[n + 1] == ':' && IsKey(s[..n])
    ensures s[n] == ':' && s[n + 1] == ':' && IsKey(s[..n]) ==> KeyInSourceId(Some(s)).Some?
  {
    var r := FirstDoubleColon(s);
    if r.Some? && r.value < n {
      assert s[..n][r.value] == ':' && s[..n][r.value] in s[..n];
    }
    if r.Some? && r.value != n { assert |s[..r.value]| != |s[..n]|; }
  }

  /** A source id written as key::source::control gives the key back. */
  lemma NamespacedIdGivesItsKey(key: string, rest: string)
    requires IsKey(key)
    ensures KeyInSourceId(Some(key + "::" + rest)) == Some(key)
  {
    var s := key + "::" + rest;
    assert s[..|key|] == key;
    KeyInSourceIdIff(s, |key|);
  }

  /** A "::" stands at n of the row's source id, after a key. */
  ghost predicate KeyEndsAt(row: Row, n: nat) {
    && row.sourceId.Some? && n + 2 <= |row.sourceId.value|
    && row.sourceId.value[n] == ':' && row.sourceId.value[n + 1] == ':' && IsKey(row.sourceId.value[..n])
  }

  lemma KeyEndsIff(row: Row, n: nat)
    ensures KeyEndsAt(row, n) ==> KeyInSourceId(row.sourceId) == Some(row.sourceId.value[..n])
    ensures KeyInSourceId(row.sourceId).Some? ==>
              FirstDoubleColon(row.sourceId.value).Some? && KeyEndsAt(row, FirstDoubleColon(row.sourceId.value).value)
  {
    if KeyEndsAt(row, n) { KeyInSourceIdIff(row.sourceId.value, n); }
  }

  /** Which rows the script changes and what it writes, said of the texts in the row: a row without a manifest key
      gets the key that ends at a "::" of its source id, wherever that is, and failing that its source type. */
  lemma WrittenKeyComesFromTheRow(row: Row, at: string, n: nat)
    requires !HasManifestKey(row)
    ensures KeyEndsAt(row, n) ==>
              && BucketOf(row) == FromSourceId
              && Meta(Fix(row, at)) == Meta(row)["manifestKey" := Str(row.sourceId.value[..n])]
                   ["backfilledManifestKeyFrom" := Str("sourceId")]["backfilledAt" := Str(at)]
    ensures (forall i: nat :: !KeyEndsAt(row, i)) && row.sourceType.Some? && row.sourceType.value != "" ==>
              && BucketOf(row) == FromSourceType
              && Meta(Fix(row, at)) == Meta(row)["manifestKey" := Str(row.sourceType.value)]
                   ["backfilledManifestKeyFrom" := Str("sourceType")]["backfilledAt" := Str(at)]
    ensures BucketOf(row) == Unchanged <==>
              (forall i: nat :: !KeyEndsAt(row, i)) && (row.sourceType.None? || row.sourceType.value == "")
  {
    hide KeyInSourceId, KeyEndsAt;
    KeyEndsIff(row, n);
    forall i: nat ensures KeyEndsAt(row, i) ==> KeyInSourceId(row.sourceId).Some? { KeyEndsIff(row, i); }
  }

  const MARKERS: set<string> := {"manifestKey", "backfilledManifestKeyFrom", "backfilledAt"}

  /** Apart from its own three markers the script alters nothing, and a row with a non-empty key not at all;
      rows that are not automated stay as they are. */
  lemma FixAllKeepsEverythingElse(rows: seq<Row>, at: int -> string, i: nat, field: string)
    requires i < |rows|
    ensures var now := FixAll(rows, at);
            && |now| == |rows| && now[i].(metadata := rows[i].metadata) == rows[i]
            && (!rows[i].automated || HasManifestKey(rows[i]) ==> now[i] == rows[i])
            && (field !in MARKERS ==>
                  && (field in Meta(now[i]) <==> field in Meta(rows[i]))
                  && (field in Meta(rows[i]) ==> Meta(now[i])[field] == Meta(rows[i])[field]))
  {
    FixKeepsEverythingElse(rows[i], at(rows[i].id), field);
  }

  lemma FixKeepsEverythingElse(row: Row, at: string, field: string)
    ensures Fix(row, at).(metadata := row.metadata) == row
    ensures field !in MARKERS ==>
              && (field in Meta(Fix(row, at)) <==> field in Meta(row))
              && (field in Meta(row) ==> Meta(Fix(row, at))[field] == Meta(row)[field])
  {
  }

  /** A manifest key that is already there is replaced exactly when it is empty or not a string and another can
      be inferred. */
  lemma KeyIsReplacedIff(row: Row, at: string)
    requires "manifestKey" in Meta(row)
    ensures "manifestKey" in Meta(Fix(row, at))
    ensures (Meta(Fix(row, at))["manifestKey"] != Meta(row)["manifestKey"])
              <==> (Meta(row)["manifestKey"] == Str("") || Meta(row)["manifestKey"].OtherJson?) && Inferred(row).Some?
  {
  }

  /** An existing key that is the number 7 gives way to the source type. */
  lemma NumberKeyIsReplaced(id: int, tenant: string, at: string)
    ensures var row := Row(id, true, tenant, Some("github"), None, Some(map["manifestKey" := OtherJson("7")]));
            Meta(Fix(row, at))["manifestKey"] == Str("github")
  {
  }

  lemma FixedRowIsDone(row: Row, at: string)
    ensures BucketOf(Fix(row, at)).Unchanged?
  {
    if !BucketOf(row).Unchanged? {
      assert FixedMetadata(row, at)["manifestKey"] == Str(Inferred(row).value);
    }
  }

  /** A second run, at any later time, updates no row and counts every row as unchanged. */
  lemma SecondRunChangesNothing(rows: seq<Row>, at: int -> string, later: int -> string, tenant: string)
    requires Sorted(rows)
    ensures var once := FixAll(rows, at);
            var summary := Tally(Automated(once));
            && Sorted(once) && FixAll(once, later) == once
            && (tenant in summary ==> summary[tenant].untouched == summary[tenant].total)
  {
    hide FixAll, BucketOf, Inferred, HasManifestKey, Fix, FixedMetadata;
    var once := FixAll(rows, at);
    FixedTableIsDone(rows, at);
    NothingToFix(once, later);
    AutomatedIsSorted(once);
    NothingToCount(Automated(once), tenant);
    TallyCounts(Automated(once), tenant);
  }

  lemma FixedTableIsDone(rows: seq<Row>, at: int -> string)
    requires Sorted(rows)
    ensures Sorted(FixAll(rows, at)) && forall r <- FixAll(rows, at) :: r.automated ==> BucketOf(r).Unchanged?
  {
    hide BucketOf, Fix;
    var once := FixAll(rows, at);
    forall i | 0 <= i < |rows|
      ensures once[i].id == rows[i].id && (once[i].automated ==> BucketOf(once[i]).Unchanged?)
    {
      FixKeepsEverythingElse(rows[i], at(rows[i].id), "");
      FixedRowIsDone(rows[i], at(rows[i].id));
    }
  }

  lemma NothingToFix(rows: seq<Row>, at: int -> string)
    requires forall r <- rows :: r.automated ==> BucketOf(r).Unchanged?
    ensures FixAll(rows, at) == rows
  {
    forall i | 0 <= i < |rows| ensures FixAll(rows, at)[i] == rows[i] { assert rows[i] in rows; }
  }

  function Count(rows: seq<Row>, tenant: string, b: Bucket): nat
    decreases |rows|
  {
    if rows == [] then 0
    else
      var last := rows[|rows| - 1];
      Count(rows[..|rows| - 1], tenant, b) + if last.tenantId == tenant && BucketOf(last) == b then 1 else 0
  }

  lemma {:induction false} NothingToCount(rows: seq<Row>, tenant: string)
    requires forall r <- rows :: BucketOf(r).Unchanged?
    ensures Count(rows, tenant, FromSourceId) == 0 && Count(rows, tenant, FromSourceType) == 0
    decreases |rows|
  {
    if rows != [] { NothingToCount(rows[..|rows| - 1], tenant); }
  }

  /** The summary counts, for each tenant with rows, how many fell into each bucket; the total is their sum. */
  lemma {:induction false} TallyCounts(rows: seq<Row>, tenant: string)
    ensures tenant in Tally(rows) <==> exists r <- rows :: r.tenantId == tenant
    ensures tenant in Tally(rows) ==>
              var c := Tally(rows)[tenant];
              && c.fromSourceId == Count(rows, tenant, FromSourceId)
              && c.fromSourceType == Count(rows, tenant, FromSourceType)
              && c.untouched == Count(rows, tenant, Unchanged)
              && c.total == c.fromSourceId + c.fromSourceType + c.untouched
    ensures tenant !in Tally(rows) ==> forall b :: Count(rows, tenant, b) == 0
    decreases |rows|
  {
    if rows != [] {
      var before, last := rows[..|rows| - 1], rows[|rows| - 1];
      TallyCounts(before, tenant);
      assert forall r :: r in rows <==> r in before || r == last;
    }
  }

  ghost function SumOfTotals(summary: Summary, tenants: set<string>): nat
    requires tenants <= summary.Keys
  {
    if tenants == {} then 0
    else
      var t :| t in tenants;
      summary[t].total + SumOfTotals(summary, tenants - {t})
  }

  lemma {:induction false} SumWithout(summary: Summary, tenants: set<string>, t: string)
    requires tenants <= summary.Keys && t in tenants
    ensures SumOfTotals(summary, tenants) == summary[t].total + SumOfTotals(summary, tenants - {t})
    decreases tenants
  {
    var u :| u in tenants && SumOfTotals(summary, tenants) == summary[u].total + SumOfTotals(summary, tenants - {u});
    if u != t {
      SumWithout(summary, tenants - {u}, t);
      SumWithout(summary, tenants - {t}, u);
      assert tenants - {u} - {t} == tenants - {t} - {u};
    }
  }

  lemma {:induction false} SumIgnoresOthers(s: Summary, s': Summary, tenants: set<string>)
    requires tenants <= s.Keys && tenants <= s'.Keys && forall t <- tenants :: s[t] == s'[t]
    ensures SumOfTotals(s, tenants) == SumOfTotals(s', tenants)
    decreases tenants
  {
    if tenants != {} {
      var t :| t in tenants;
      SumWithout(s, tenants, t);
      SumWithout(s', tenants, t);
      SumIgnoresOthers(s, s', tenants - {t});
    }
  }

  /** The totals of all tenants add up to the number of rows processed. */
  lemma {:induction false} TotalsSumToProcessed(rows: seq<Row>)
    ensures SumOfTotals(Tally(rows), Tally(rows).Keys) == |rows|
    decreases |rows|
  {
    if rows != [] {
      var before, last := rows[..|rows| - 1], rows[|rows| - 1];
      TotalsSumToProcessed(before);
      BumpAddsOne(Tally(before), last.tenantId, BucketOf(last));
    }
  }

  lemma BumpAddsOne(summary: Summary, tenant: string, b: Bucket)
    ensures var s' := Bump(summary, tenant, b);
            SumOfTotals(s', s'.Keys) == SumOfTotals(summary, summary.Keys) + 1
  {
    var s' := Bump(summary, tenant, b);
    var others := summary.Keys - {tenant};
    assert s'.Keys - {tenant} == others;
    SumWithout(s', s'.Keys, tenant);
    SumIgnoresOthers(s', summary, others);
    if tenant in summary { SumWithout(summary, summary.Keys, tenant); } else { assert others == summary.Keys; }
  }
}
