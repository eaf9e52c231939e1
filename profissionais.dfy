/**
 * The callable `salvarDadosPessoais`: after the parameter checks pass, the
 * request object is written unchanged as a new document of the
 * `profissionais` collection; a failed write is caught and reported in the
 * returned text.
 */
module Profissionais {
  import opened Request
  import opened ParameterCheck

  /** Document ids; a counter stands in for Firestore's random auto-ids. */
  type DocId = nat

  /** A stored document: the request object's properties, verbatim. */
  type Doc = map<string, Value>

  /** What a call ends with: the object `{ text }` it returns, or what it throws. */
  datatype Outcome =
    | Returned(text: string)
    | Thrown(failure: Failure)

  const INSERTED_TEXT := "Profissional inserido!"
  const INSERT_FAILED_TEXT := "Erro ao inserir profissional"

  /** Every stored id is below `next`, so `next` is not yet used. */
  ghost predicate IdsBelow(docs: map<DocId, Doc>, next: DocId)
  {
    forall id :: id in docs ==> id < next
  }

  /** The collection after a call, and the call's outcome. */
  datatype Reply = Reply(docs: map<DocId, Doc>, outcome: Outcome)

  /**
   * One call on collection `docs`, with `id` the new document's auto-id and
   * `writeOk` the store's answer to the write.
   */
  function Call(docs: map<DocId, Doc>, id: DocId, data: Data, writeOk: bool): (r: Reply)
    requires id !in docs
    // only the parameter checks throw; a write failure is caught
    ensures r.outcome.Thrown? <==> !Accepts(data)
    // a rejected call throws what the checks report and writes nothing
    ensures !Accepts(data) ==> r == Reply(docs, Thrown(Guard(data).value))
    // an accepted call returns one of the two texts, by the write's success
    ensures Accepts(data) ==> r.outcome == Returned(if writeOk then INSERTED_TEXT else INSERT_FAILED_TEXT)
    // the collection changes exactly when the success text is returned ...
    ensures r.docs != docs <==> r.outcome == Returned(INSERTED_TEXT)
    // ... and then by one new document holding the request verbatim
    ensures r.outcome == Returned(INSERTED_TEXT) ==>
      && data.Object?
      && r.docs == docs[id := data.fields]
      && |r.docs| == |docs| + 1
  {
    match Guard(data)
    case Some(failure) => Reply(docs, Thrown(failure))
    case None =>
      if writeOk then Reply(docs[id := data.fields], Returned(INSERTED_TEXT))
      else Reply(docs, Returned(INSERT_FAILED_TEXT))
  }

  /** The `profissionais` collection of the document store. */
  class Collection {
    var docs: map<DocId, Doc>
    var nextId: DocId

    ghost predicate Valid()
      reads this
    {
      IdsBelow(docs, nextId)
    }

    constructor ()
      ensures Valid() && docs == map[]
    {
      docs := map[];
      nextId := 0;
    }

    /** `colProfissionais.doc()`: a reference under an id not yet in use. */
    method NewDoc() returns (id: DocId)
      requires Valid()
      modifies this`nextId
      ensures Valid()
      ensures id !in docs && id == old(nextId) && nextId == id + 1
    {
      id := nextId;
      nextId := nextId + 1;
    }

    /** `ref.set(doc)`: the store applies the write when `writeOk` holds. */
    method Set(id: DocId, doc: Doc, writeOk: bool) returns (ok: bool)
      requires Valid() && id < nextId
      modifies this`docs
      ensures Valid()
      ensures ok == writeOk
      ensures docs == if writeOk then old(docs)[id := doc] else old(docs)
    {
      ok := writeOk;
      if writeOk {
        docs := docs[id := doc];
      }
    }
  }

  /** The callable's body, run against the collection `col`. */
  method SalvarDadosPessoais(col: Collection, data: Data, writeOk: bool) returns (out: Outcome)
    requires col.Valid()
    modifies col
    ensures col.Valid()
    ensures Reply(col.docs, out) == Call(old(col.docs), old(col.nextId), data, writeOk)
    ensures col.nextId == if Accepts(data) then old(col.nextId) + 1 else old(col.nextId)
  {
    var failure := Guard(data);
    if failure.Some? {
      return Thrown(failure.value);
    }
    var id := col.NewDoc();
    var ok := col.Set(id, data.fields, writeOk);
    if ok {
      out := Returned(INSERTED_TEXT);
    } else {
      out := Returned(INSERT_FAILED_TEXT);
    }
  }

  /** One invocation of the callable: its request and the store's answer. */
  datatype Invocation = Invocation(data: Data, writeOk: bool)

  /** The collection, the id counter and the outcomes after a series of calls. */
  datatype Session = Session(docs: map<DocId, Doc>, next: DocId, outcomes: seq<Outcome>)

  /** Calls run one after another, each accepted one drawing a new id. */
  function Replay(docs: map<DocId, Doc>, next: DocId, calls: seq<Invocation>): (r: Session)
    requires IdsBelow(docs, next)
    ensures IdsBelow(r.docs, r.next) && next <= r.next
    ensures |r.outcomes| == |calls|
    decreases |calls|
  {
    if calls == [] then Session(docs, next, [])
    else
      var c := calls[0];
      var step := Call(docs, next, c.data, c.writeOk);
      var next' := if Accepts(c.data) then next + 1 else next;
      var rest := Replay(step.docs, next', calls[1..]);
      Session(rest.docs, rest.next, [step.outcome] + rest.outcomes)
  }

  /** How many outcomes are the success text. */
  function CountInserted(outcomes: seq<Outcome>): nat
  {
    if outcomes == [] then 0
    else (if outcomes[0] == Returned(INSERTED_TEXT) then 1 else 0) + CountInserted(outcomes[1..])
  }

  /**
   * Over any series of calls, the collection grows by exactly one document
   * per call that returned the success text, and no earlier document is
   * changed or removed.
   */
  lemma {:induction false} ReplayGrowsByInserted(docs: map<DocId, Doc>, next: DocId, calls: seq<Invocation>)
    requires IdsBelow(docs, next)
    ensures |Replay(docs, next, calls).docs| == |docs| + CountInserted(Replay(docs, next, calls).outcomes)
    ensures forall id :: id in docs ==> id in Replay(docs, next, calls).docs && Replay(docs, next, calls).docs[id] == docs[id]
    decreases |calls|
  {
    if calls != [] {
      var c := calls[0];
      var step := Call(docs, next, c.data, c.writeOk);
      var next' := if Accepts(c.data) then next + 1 else next;
      ReplayGrowsByInserted(step.docs, next', calls[1..]);
      var r := Replay(docs, next, calls);
      assert r.outcomes == [step.outcome] + Replay(step.docs, next', calls[1..]).outcomes;
      assert r.outcomes[1..] == Replay(step.docs, next', calls[1..]).outcomes;
    }
  }

  /**
   * The store does not deduplicate: the same accepted request sent twice,
   * with both writes succeeding, leaves two new documents with the same
   * contents under two different ids.
   */
  lemma {:induction false} RepeatedCallStoresTwice(docs: map<DocId, Doc>, next: DocId, data: Data)
    requires IdsBelow(docs, next)
    requires Accepts(data)
    ensures |Replay(docs, next, [Invocation(data, true), Invocation(data, true)]).docs| == |docs| + 2
    ensures var s := Replay(docs, next, [Invocation(data, true), Invocation(data, true)]).docs;
      next in s && next + 1 in s && s[next] == s[next + 1] == data.fields
  {
    var calls := [Invocation(data, true), Invocation(data, true)];
    ReplayGrowsByInserted(docs, next, calls);
    var first := Call(docs, next, data, true);
    var second := Call(first.docs, next + 1, data, true);
    assert calls[1..] == [Invocation(data, true)];
    assert Replay(first.docs, next + 1, calls[1..]).docs == second.docs;
  }
}
