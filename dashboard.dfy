// The owner's dashboard (src/pages/Dashboard.jsx): the fetched document list,
// the case-insensitive search over name and status, deleting a card, and the
// total/signed/pending counters.
module Dashboard {
  import opened Common
  import opened Seqs
  import opened Strings

  const LoadFailed := Toast("Failed to load documents.", Error)
  const Deleted := Toast("\U{1F5D1}\U{FE0F} Document deleted.", Success)

  /** A document card; `name` and `status` may be missing from the server's record. */
  datatype Doc = Doc(id: string, name: Option<string>, status: Option<string>)

  /** `doc.name?.toLowerCase().includes(term) || doc.status?.toLowerCase().includes(term)`. */
  predicate Matches(term: string, d: Doc) {
    (d.name.Some? && Includes(ToLower(d.name.value), term)) ||
    (d.status.Some? && Includes(ToLower(d.status.value), term))
  }

  function Matcher(term: string): Doc -> bool {
    (d: Doc) => Matches(term, d)
  }

  function IdIsNot(id: string): Doc -> bool {
    (d: Doc) => d.id != id
  }

  function HasStatus(status: string): Doc -> bool {
    (d: Doc) => d.status == Some(status)
  }

  function HasNameOrStatus(): Doc -> bool {
    (d: Doc) => d.name.Some? || d.status.Some?
  }

  /** The documents a search for `term` shows: those whose name or status contains it, in order. */
  function Search(docs: seq<Doc>, term: string): (r: seq<Doc>)
    ensures forall i :: 0 <= i < |r| ==> r[i] in docs && Matches(term, r[i])
    ensures forall i :: 0 <= i < |docs| && Matches(term, docs[i]) ==> docs[i] in r
    ensures IsSubsequence(r, docs)
    ensures multiset(r) <= multiset(docs)
    ensures forall i :: 0 <= i < |docs| && Matches(term, docs[i]) ==> multiset(r)[docs[i]] == multiset(docs)[docs[i]]
  {
    Filter(docs, Matcher(term))
  }

  /** With an empty search box, exactly the documents that have a name or a status are shown. */
  lemma EmptySearchKeepsNamed(docs: seq<Doc>)
    ensures Search(docs, "") == Filter(docs, HasNameOrStatus())
  {
    forall i | 0 <= i < |docs| ensures Matcher("")(docs[i]) == HasNameOrStatus()(docs[i]) {
      var d := docs[i];
      if d.name.Some? {
        IncludesEmpty(ToLower(d.name.value));
      }
      if d.status.Some? {
        IncludesEmpty(ToLower(d.status.value));
      }
    }
    FilterCongruent(docs, Matcher(""), HasNameOrStatus());
  }

  /** Typing a document's name in any mix of cases finds that document. */
  lemma NameFoundInAnyCase(d: Doc, value: string)
    requires d.name.Some? && ToLower(d.name.value) == ToLower(value)
    ensures Matches(ToLower(value), d)
  {
    assert ToLower(value)[0..|ToLower(value)|] == ToLower(value);
    assert OccursAt(ToLower(d.name.value), ToLower(value), 0);
  }

  /** The number of documents whose status is exactly `status`. */
  function CountStatus(docs: seq<Doc>, status: string): (n: nat)
    ensures n <= |docs|
    ensures n == 0 <==> forall i :: 0 <= i < |docs| ==> docs[i].status != Some(status)
  {
    |Filter(docs, HasStatus(status))|
  }

  /** No document is both signed and pending, so the two counters never exceed the total. */
  lemma SignedPlusPendingBounded(docs: seq<Doc>)
    ensures CountStatus(docs, "signed") + CountStatus(docs, "pending") <= |docs|
  {
    DisjointFiltersBounded(docs, HasStatus("signed"), HasStatus("pending"));
  }

  class State {
    var docs: seq<Doc>
    var filteredDocs: seq<Doc>
    var loading: bool
    var toast: Option<Toast>
    var searchTerm: string

    /** The cards shown are drawn from the loaded documents, in order; the stored term is lower case. */
    ghost predicate Valid()
      reads this
    {
      IsSubsequence(filteredDocs, docs) && ToLower(searchTerm) == searchTerm
    }

    constructor ()
      ensures Valid()
      ensures docs == [] && filteredDocs == [] && loading && toast == None && searchTerm == ""
    {
      docs, filteredDocs := [], [];
      loading, toast, searchTerm := true, None, "";
    }

    /** fetchDocuments: `res` is the list from `GET /docs`, `None` when the request fails. */
    method FetchDocuments(res: Option<seq<Doc>>)
      requires Valid()
      modifies this`docs, this`filteredDocs, this`loading, this`toast
      ensures Valid() && !loading
      ensures res.Some? ==> docs == res.value && filteredDocs == res.value && toast == old(toast)
      ensures res.None? ==> docs == old(docs) && filteredDocs == old(filteredDocs) && toast == Some(LoadFailed)
    {
      if res.Some? {
        docs := res.value;
        filteredDocs := res.value;
        SubsequenceReflexive(res.value);
      } else {
        toast := Some(LoadFailed);
      }
      loading := false;
    }

    /** handleSearch: store the lower-cased input and show the documents matching it. */
    method HandleSearch(value: string)
      requires Valid()
      modifies this`searchTerm, this`filteredDocs
      ensures Valid()
      ensures searchTerm == ToLower(value)
      ensures filteredDocs == Search(docs, ToLower(value))
    {
      ToLowerIdempotent(value);
      searchTerm := ToLower(value);
      filteredDocs := Search(docs, searchTerm);
    }

    /** handleDelete: drop the document with that id and re-apply the stored search term. */
    method HandleDelete(deletedId: string)
      requires Valid()
      modifies this`docs, this`filteredDocs, this`toast
      ensures Valid()
      ensures docs == Filter(old(docs), IdIsNot(deletedId))
      ensures forall i :: 0 <= i < |old(docs)| && old(docs)[i].id != deletedId ==> old(docs)[i] in docs
      ensures forall i :: 0 <= i < |docs| ==> docs[i].id != deletedId
      ensures filteredDocs == Search(docs, searchTerm)
      ensures toast == Some(Deleted)
    {
      docs := Filter(docs, IdIsNot(deletedId));
      filteredDocs := Search(docs, searchTerm);
      toast := Some(Deleted);
    }

    /** The total counter; the signed and pending counters never exceed it together. */
    function Total(): (n: nat)
      reads this
      ensures Signed() + Pending() <= n
    {
      SignedPlusPendingBounded(docs);
      |docs|
    }

    /** The signed counter: zero exactly when no document's status is 'signed'. */
    function Signed(): (n: nat)
      reads this
      ensures n == 0 <==> forall i :: 0 <= i < |docs| ==> docs[i].status != Some("signed")
    {
      CountStatus(docs, "signed")
    }

    /** The pending counter: zero exactly when no document's status is 'pending'. */
    function Pending(): (n: nat)
      reads this
      ensures n == 0 <==> forall i :: 0 <= i < |docs| ==> docs[i].status != Some("pending")
    {
      CountStatus(docs, "pending")
    }
  }
}
