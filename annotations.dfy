// The signature-annotation collection that the owner's document view and the
// guest's shared document view each keep in their `signatures` state: the
// record, the spread-merge of new fields into a record, and the three list
// operations (map-merge by id, filter-out by id, filter by page). Also the
// page-navigation clamps and the document URL both views build.
module Annotations {
  import opened Common
  import opened Seqs

  /** One placed signature. Ids come from Date.now() and need not be unique. */
  datatype Signature = Signature(
    id: int,
    x: int,
    y: int,
    page: int,
    text: string,
    fontSize: int,
    fontWeight: string,
    fontStyle: string,
    underline: bool,
    fontFamily: string,
    color: string)

  /** The nine fields a signature box reports to its owner and the server persists. */
  datatype Snapshot = Snapshot(
    x: int,
    y: int,
    text: string,
    fontSize: int,
    fontWeight: string,
    fontStyle: string,
    underline: bool,
    fontFamily: string,
    color: string)

  /** The keys present in the `newData` object merged into a record; `None` = key absent. */
  datatype Patch = Patch(
    x: Option<int>,
    y: Option<int>,
    text: Option<string>,
    fontSize: Option<int>,
    fontWeight: Option<string>,
    fontStyle: Option<string>,
    underline: Option<bool>,
    fontFamily: Option<string>,
    color: Option<string>)

  function FieldsOf(s: Signature): Snapshot {
    Snapshot(s.x, s.y, s.text, s.fontSize, s.fontWeight, s.fontStyle, s.underline, s.fontFamily, s.color)
  }

  /** The object a signature box passes to onUpdate: every one of the nine keys. */
  function SnapshotPatch(snap: Snapshot): Patch {
    Patch(Some(snap.x), Some(snap.y), Some(snap.text), Some(snap.fontSize), Some(snap.fontWeight),
          Some(snap.fontStyle), Some(snap.underline), Some(snap.fontFamily), Some(snap.color))
  }

  /** The object `{ x, y }` that a drag end merges into a record. */
  function PositionPatch(x: int, y: int): Patch {
    Patch(Some(x), Some(y), None, None, None, None, None, None, None)
  }

  function Pick<T>(given: Option<T>, current: T): T {
    if given.Some? then given.value else current
  }

  /** `{ ...s, ...p }`: the keys present in `p` win, every other key keeps its value. */
  function Merge(s: Signature, p: Patch): (r: Signature)
    ensures r.id == s.id && r.page == s.page
  {
    Signature(s.id, Pick(p.x, s.x), Pick(p.y, s.y), s.page, Pick(p.text, s.text),
              Pick(p.fontSize, s.fontSize), Pick(p.fontWeight, s.fontWeight),
              Pick(p.fontStyle, s.fontStyle), Pick(p.underline, s.underline),
              Pick(p.fontFamily, s.fontFamily), Pick(p.color, s.color))
  }

  /** Merging a full snapshot makes the record's nine fields exactly that snapshot. */
  lemma MergeSnapshot(s: Signature, snap: Snapshot)
    ensures FieldsOf(Merge(s, SnapshotPatch(snap))) == snap
    ensures Merge(s, SnapshotPatch(snap)).id == s.id
    ensures Merge(s, SnapshotPatch(snap)).page == s.page
  {
  }

  /** Merging `{ x, y }` moves the record and changes no other field. */
  lemma MergePosition(s: Signature, x: int, y: int)
    ensures Merge(s, PositionPatch(x, y)) == s.(x := x, y := y)
  {
  }

  /** Merging the same object twice is merging it once. */
  lemma MergeIdempotent(s: Signature, p: Patch)
    ensures Merge(Merge(s, p), p) == Merge(s, p)
  {
  }

  /** `prev.map(sig => sig.id === id ? { ...sig, ...p } : sig)`. */
  function UpdateAll(sigs: seq<Signature>, id: int, p: Patch): (r: seq<Signature>)
    ensures |r| == |sigs|
    ensures forall i :: 0 <= i < |sigs| && sigs[i].id == id ==> r[i] == Merge(sigs[i], p)
    ensures forall i :: 0 <= i < |sigs| && sigs[i].id != id ==> r[i] == sigs[i]
  {
    if sigs == [] then []
    else [if sigs[0].id == id then Merge(sigs[0], p) else sigs[0]] + UpdateAll(sigs[1..], id, p)
  }

  /** Updating an id that no record carries leaves the list as it was. */
  lemma UpdateAbsent(sigs: seq<Signature>, id: int, p: Patch)
    requires forall i :: 0 <= i < |sigs| ==> sigs[i].id != id
    ensures UpdateAll(sigs, id, p) == sigs
  {
  }

  /** Updating keeps every record's id and page, so it never moves a record between pages. */
  lemma UpdateKeepsIdsAndPages(sigs: seq<Signature>, id: int, p: Patch, i: int)
    requires 0 <= i < |sigs|
    ensures UpdateAll(sigs, id, p)[i].id == sigs[i].id
    ensures UpdateAll(sigs, id, p)[i].page == sigs[i].page
  {
  }

  /** Applying the same update twice is applying it once. */
  lemma UpdateIdempotent(sigs: seq<Signature>, id: int, p: Patch)
    ensures UpdateAll(UpdateAll(sigs, id, p), id, p) == UpdateAll(sigs, id, p)
  {
    var once := UpdateAll(sigs, id, p);
    forall i | 0 <= i < |sigs| && sigs[i].id == id
      ensures UpdateAll(once, id, p)[i] == once[i]
    {
      MergeIdempotent(sigs[i], p);
    }
  }

  function OnPage(page: int): Signature -> bool {
    (s: Signature) => s.page == page
  }

  function IdIsNot(id: int): Signature -> bool {
    (s: Signature) => s.id != id
  }

  /** `signatures.filter(s => s.page === page)`: the boxes rendered on that page. */
  function ForPage(sigs: seq<Signature>, page: int): (r: seq<Signature>)
    ensures forall i :: 0 <= i < |r| ==> r[i].page == page && r[i] in sigs
    ensures forall i :: 0 <= i < |sigs| && sigs[i].page == page ==> sigs[i] in r
    ensures IsSubsequence(r, sigs)
    ensures multiset(r) <= multiset(sigs)
    ensures forall i :: 0 <= i < |sigs| && sigs[i].page == page ==> multiset(r)[sigs[i]] == multiset(sigs)[sigs[i]]
  {
    Filter(sigs, OnPage(page))
  }

  /** `prev.filter(s => s.id !== id)`: every record with that id goes, the rest stay in order. */
  function WithoutId(sigs: seq<Signature>, id: int): (r: seq<Signature>)
    ensures forall i :: 0 <= i < |r| ==> r[i].id != id && r[i] in sigs
    ensures forall i :: 0 <= i < |sigs| && sigs[i].id != id ==> sigs[i] in r
    ensures IsSubsequence(r, sigs)
    ensures multiset(r) <= multiset(sigs)
    ensures forall i :: 0 <= i < |sigs| && sigs[i].id != id ==> multiset(r)[sigs[i]] == multiset(sigs)[sigs[i]]
  {
    Filter(sigs, IdIsNot(id))
  }

  /** Deleting twice is deleting once. */
  lemma DeleteIdempotent(sigs: seq<Signature>, id: int)
    ensures WithoutId(WithoutId(sigs, id), id) == WithoutId(sigs, id)
  {
    FilterIdempotent(sigs, IdIsNot(id));
  }

  /** Deleting an id that no record carries leaves the list as it was. */
  lemma DeleteAbsent(sigs: seq<Signature>, id: int)
    requires forall i :: 0 <= i < |sigs| ==> sigs[i].id != id
    ensures WithoutId(sigs, id) == sigs
  {
    FilterKeepsAll(sigs, IdIsNot(id));
  }

  /** A record appended on page `page` shows up exactly once, last, on that page, and nowhere else. */
  lemma AppendThenForPage(sigs: seq<Signature>, s: Signature, page: int)
    ensures ForPage(sigs + [s], page) ==
            if s.page == page then ForPage(sigs, page) + [s] else ForPage(sigs, page)
  {
    FilterAppend(sigs, [s], OnPage(page));
    assert [s][1..] == [];
  }

  /** Updating and then selecting a page equals selecting the page and then updating. */
  lemma {:induction false} UpdateThenForPage(sigs: seq<Signature>, id: int, p: Patch, page: int)
    ensures ForPage(UpdateAll(sigs, id, p), page) == UpdateAll(ForPage(sigs, page), id, p)
    decreases |sigs|
  {
    if sigs != [] {
      var u := UpdateAll(sigs, id, p);
      assert u == [u[0]] + UpdateAll(sigs[1..], id, p);
      assert sigs == [sigs[0]] + sigs[1..];
      FilterAppend([u[0]], UpdateAll(sigs[1..], id, p), OnPage(page));
      FilterAppend([sigs[0]], sigs[1..], OnPage(page));
      UpdateThenForPage(sigs[1..], id, p, page);
      var f := ForPage(sigs[1..], page);
      if sigs[0].page == page {
        assert Filter([u[0]], OnPage(page)) == [u[0]];
        assert Filter([sigs[0]], OnPage(page)) == [sigs[0]];
        assert UpdateAll([sigs[0]] + f, id, p) == [u[0]] + UpdateAll(f, id, p);
      } else {
        assert Filter([u[0]], OnPage(page)) == [];
        assert Filter([sigs[0]], OnPage(page)) == [];
      }
    }
  }

  /** The record a view's "Add Signature" button appends: only the text differs between views. */
  function NewSignature(id: int, page: int, text: string): (r: Signature)
    ensures r.id == id && r.page == page
    ensures FieldsOf(r) == Snapshot(100, 100, text, 16, "normal", "normal", false, "Arial", "#000000")
  {
    Signature(id, 100, 100, page, text, 16, "normal", "normal", false, "Arial", "#000000")
  }

  /** goToPrevPage: `Math.max(1, prev - 1)`. */
  function PrevPage(current: int): (r: int)
    ensures r >= 1
    ensures current > 1 ==> r == current - 1
    ensures current <= 1 ==> r == 1
  {
    if current - 1 > 1 then current - 1 else 1
  }

  /** goToNextPage: `Math.min(numPages, prev + 1)`. */
  function NextPage(current: int, numPages: int): (r: int)
    ensures r <= numPages
    ensures current < numPages ==> r == current + 1
    ensures current >= numPages ==> r == numPages
  {
    if current + 1 < numPages then current + 1 else numPages
  }

  /** From a page in range, both buttons keep the page in range. */
  lemma NavigationInRange(current: int, numPages: int)
    requires 1 <= current <= numPages
    ensures 1 <= PrevPage(current) <= numPages
    ensures 1 <= NextPage(current, numPages) <= numPages
    ensures current == 1 ==> PrevPage(current) == 1
    ensures current == numPages ==> NextPage(current, numPages) == numPages
  {
  }

  function PrevTimes(current: int, k: nat): int
    decreases k
  {
    if k == 0 then current else PrevTimes(PrevPage(current), k - 1)
  }

  function NextTimes(current: int, numPages: int, k: nat): int
    decreases k
  {
    if k == 0 then current else NextTimes(NextPage(current, numPages), numPages, k - 1)
  }

  /** Pressing Prev k times from page `current` lands on max(1, current - k). */
  lemma {:induction false} PrevRepeated(current: int, k: nat)
    requires current >= 1
    ensures PrevTimes(current, k) == if current - k >= 1 then current - k else 1
    decreases k
  {
    if k > 0 {
      PrevRepeated(PrevPage(current), k - 1);
    }
  }

  /** Pressing Next k times from page `current` lands on min(numPages, current + k). */
  lemma {:induction false} NextRepeated(current: int, numPages: int, k: nat)
    requires current <= numPages
    ensures NextTimes(current, numPages, k) == if current + k <= numPages then current + k else numPages
    decreases k
  {
    if k > 0 {
      NextRepeated(NextPage(current, numPages), numPages, k - 1);
    }
  }

  /** `path.replace(/\\/g, '/')`: every backslash becomes a forward slash. */
  function NormalizeSlashes(path: string): (r: string)
    ensures |r| == |path|
    ensures forall i :: 0 <= i < |r| ==> r[i] != '\\'
    ensures forall i :: 0 <= i < |path| && path[i] != '\\' ==> r[i] == path[i]
    ensures forall i :: 0 <= i < |path| && path[i] == '\\' ==> r[i] == '/'
  {
    if path == [] then []
    else [if path[0] == '\\' then '/' else path[0]] + NormalizeSlashes(path[1..])
  }

  /** Normalising an already normalised path changes nothing. */
  lemma NormalizeIdempotent(path: string)
    ensures NormalizeSlashes(NormalizeSlashes(path)) == NormalizeSlashes(path)
  {
  }

  /** `${base}/${filePath.replace(/\\/g, '/')}`. */
  function DocumentUrl(base: string, filePath: string): (r: string)
    ensures |r| == |base| + 1 + |filePath|
    ensures r[..|base|] == base && r[|base|] == '/'
    ensures forall i :: |base| < i < |r| ==> r[i] != '\\'
    ensures r[|base| + 1..] == NormalizeSlashes(filePath)
  {
    base + "/" + NormalizeSlashes(filePath)
  }
}
