/**
 * What the Spring controllers share: a Mongo collection as its documents
 * keyed by id in natural order, the derived queries and deletes they call,
 * the outcomes of a request, and Bean Validation's @NotBlank.
 */
module MongoStore {
  import opened Wrappers
  import opened Seqs
  import opened Text
  import opened Records

  /** A collection: each document once under its id, in insertion order. */
  type Collection<T> = Record<T>

  /** How a request ends: a 200 with its body, a 400 from @Valid, or a 500
      from a RuntimeException with its message. */
  datatype Response<T> = Ok(body: T) | BadRequest | ServerError(message: string)

  const UserNotFound: string := "User not found"

  /** @NotBlank on a String: not null, and not empty once trimmed. */
  predicate NotBlank(s: Option<string>) { s.Some? && JavaTrim(s.value) != [] }

  predicate UniqueIds<T>(c: Collection<T>) { Distinct(Keys(c)) }

  /** A derived query's result: the documents matching `p`, in natural order. */
  function Where<T(==)>(c: Collection<T>, p: T -> bool): (r: Collection<T>)
    ensures forall i :: 0 <= i < |r| ==> r[i] in c && p(r[i].1)
    ensures forall i :: 0 <= i < |c| && p(c[i].1) ==> c[i] in r
  {
    Filter(c, (e: (string, T)) => p(e.1))
  }

  function Values<T>(c: Collection<T>): (r: seq<T>)
    ensures |r| == |c| && forall i :: 0 <= i < |c| ==> r[i] == c[i].1
  {
    Map(c, (e: (string, T)) => e.1)
  }

  /** deleteAll of some documents: every document under one of their ids goes. */
  function DeleteIds<T(==)>(c: Collection<T>, ids: seq<string>): (r: Collection<T>)
    ensures forall i :: 0 <= i < |r| ==> r[i] in c && r[i].0 !in ids
    ensures forall i :: 0 <= i < |c| && c[i].0 !in ids ==> c[i] in r
  {
    Filter(c, (e: (string, T)) => e.0 !in ids)
  }

  /** Deleting keeps the remaining ids unique. */
  lemma {:induction false} DeleteKeepsUnique<T>(c: Collection<T>, ids: seq<string>)
    requires UniqueIds(c)
    ensures UniqueIds(DeleteIds(c, ids))
    decreases |c|
  {
    if c != [] {
      var init := c[..|c| - 1];
      var x := c[|c| - 1];
      assert forall i :: 0 <= i < |init| ==> init[i] == c[i];
      DeleteKeepsUnique(init, ids);
      var f := DeleteIds(init, ids);
      assert DeleteIds(c, ids) == f + (if x.0 !in ids then [x] else []);
      forall i | 0 <= i < |f| ensures f[i].0 != x.0 {
        var j :| 0 <= j < |init| && init[j] == f[i];
        assert Keys(c)[j] != Keys(c)[|c| - 1];
      }
    }
  }

  /** Saving under a new id appends the document. */
  lemma {:induction false} SaveNew<T>(c: Collection<T>, id: string, doc: T)
    requires id !in Keys(c)
    ensures Put(c, id, doc) == c + [(id, doc)]
    ensures UniqueIds(c) ==> UniqueIds(Put(c, id, doc))
    decreases |c|
  {
    if c != [] {
      assert Keys(c) == [c[0].0] + Keys(c[1..]);
      SaveNew(c[1..], id, doc);
      assert Put(c, id, doc) == [c[0]] + Put(c[1..], id, doc);
      assert [c[0]] + (c[1..] + [(id, doc)]) == c + [(id, doc)];
    }
    KeysPut(c, id, doc);
  }

  /** Saving under an existing id keeps the ids. */
  lemma SaveExisting<T>(c: Collection<T>, id: string, doc: T)
    requires Get(c, id).Some?
    ensures Keys(Put(c, id, doc)) == Keys(c)
    ensures UniqueIds(c) ==> UniqueIds(Put(c, id, doc))
  {
    GetDefined(c, id);
    KeysPut(c, id, doc);
  }

  /** Saving what is already stored changes nothing. */
  lemma {:induction false} SaveSame<T>(c: Collection<T>, id: string, doc: T)
    requires Get(c, id) == Some(doc)
    ensures Put(c, id, doc) == c
    decreases |c|
  {
    if c != [] && c[0].0 != id {
      SaveSame(c[1..], id, doc);
    }
  }

  /** A second save under the same id overrides the first. */
  lemma {:induction false} SaveTwice<T>(c: Collection<T>, id: string, doc: T, doc': T)
    ensures Put(Put(c, id, doc), id, doc') == Put(c, id, doc')
    decreases |c|
  {
    if c != [] && c[0].0 != id {
      SaveTwice(c[1..], id, doc, doc');
    }
  }

  /** In a collection with unique ids, a document's id picks out that document. */
  lemma UniqueIdEntry<T>(c: Collection<T>, i: int, j: int)
    requires UniqueIds(c) && 0 <= i < |c| && 0 <= j < |c| && c[i].0 == c[j].0
    ensures i == j
  {
    assert Keys(c)[i] == Keys(c)[j];
  }
}
