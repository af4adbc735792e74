/** The vector store glue: fragments tagged with `{role, session_id}`, the session
    post-filter applied to a global similarity search, and the store object that
    flushes itself to disk after every write. */
module Database {
  import opened Outcomes
  import opened Messages

  const RoleKey := "role"
  const SessionKey := "session_id"

  /** Number of candidates a retrieval asks the similarity search for. */
  const DefaultNumResults: nat := 5

  /** A stored document: its text and its metadata dictionary. */
  datatype Fragment = Fragment(content: string, metadata: map<string, string>)

  /** The document `save_message_to_db` builds for one turn. */
  function Tagged(content: string, role: string, sessionId: string): Fragment
  {
    Fragment(content, map[RoleKey := role, SessionKey := sessionId])
  }

  /** The document a brand-new store is seeded with. */
  const Placeholder := Tagged("Placeholder content", "assistant", "default")

  /** A document belongs to a session when its metadata has a `session_id`
      equal to that session; a document without the key belongs to none. */
  predicate InSession(d: Fragment, sessionId: string)
  {
    SessionKey in d.metadata && d.metadata[SessionKey] == sessionId
  }

  /** The pair a kept hit contributes: its stored role, then its text. */
  function Project(d: Fragment): Pair
    requires RoleKey in d.metadata
  {
    (d.metadata[RoleKey], d.content)
  }

  /** The similarity search: given the stored fragments, a query and `k`, the
      ranked hits. Ranking by embedding distance is not modelled. */
  type SearchFn = (seq<Fragment>, string, nat) -> seq<Fragment>

  /** What the search is relied on for: at most `k` hits, each a stored fragment. */
  ghost predicate ValidSearch(search: SearchFn)
  {
    forall store, query, k ::
      |search(store, query, k)| <= k &&
      forall i :: 0 <= i < |search(store, query, k)| ==> search(store, query, k)[i] in store
  }

  /** The post-filter comprehension of `retrieve_similar_context`: keep the hits of
      the session in ranking order and project them; a kept hit without a role
      raises `KeyError('role')`. */
  function FilterToSession(docs: seq<Fragment>, sessionId: string): (r: Result<seq<Pair>>)
    ensures r.Ok? <==> forall i :: 0 <= i < |docs| && InSession(docs[i], sessionId) ==> RoleKey in docs[i].metadata
    ensures r.Err? ==> r.error == KeyError(RoleKey)
    ensures r.Ok? ==> |r.value| <= |docs|
  {
    if docs == [] then Ok([])
    else if !InSession(docs[0], sessionId) then FilterToSession(docs[1..], sessionId)
    else if RoleKey !in docs[0].metadata then Err(KeyError(RoleKey))
    else
      match FilterToSession(docs[1..], sessionId)
      case Ok(rest) => Ok([Project(docs[0])] + rest)
      case Err(e) => Err(e)
  }

  /** Context retrieval: ask the global similarity search for `numResults`
      candidates (five unless told otherwise), then keep the session's own, in
      ranking order. */
  function RetrieveSimilarContext(store: seq<Fragment>, search: SearchFn, sessionId: string,
                                  userInput: string, numResults: nat := DefaultNumResults): (r: Result<seq<Pair>>)
    ensures r.Ok? ==> |r.value| <= |search(store, userInput, numResults)|
    ensures r.Err? ==> r.error == KeyError(RoleKey)
  {
    FilterToSession(search(store, userInput, numResults), sessionId)
  }

  /** `idx` lists the hits that belong to the session, in increasing position,
      and the result is their projections in that order. */
  ghost predicate SelectsSession(docs: seq<Fragment>, sessionId: string, r: seq<Pair>, idx: seq<nat>)
  {
    && |idx| == |r|
    && (forall i, j :: 0 <= i < j < |idx| ==> idx[i] < idx[j])
    && (forall i :: 0 <= i < |idx| ==>
          idx[i] < |docs| && InSession(docs[idx[i]], sessionId) &&
          RoleKey in docs[idx[i]].metadata && r[i] == Project(docs[idx[i]]))
    && (forall j :: 0 <= j < |docs| && InSession(docs[j], sessionId) ==> j in idx)
  }

  /** Every position moved one place to the right. */
  function Shift(s: seq<nat>): seq<nat>
  {
    seq(|s|, k requires 0 <= k < |s| => s[k] + 1)
  }

  /** The selection for `docs[1..]`, shifted by one, selects the same hits of `docs`. */
  lemma ShiftSelects(docs: seq<Fragment>, sessionId: string, rest: seq<Pair>, tail: seq<nat>, s: seq<nat>)
    requires docs != []
    requires SelectsSession(docs[1..], sessionId, rest, tail)
    requires s == Shift(tail)
    ensures forall i, j :: 0 <= i < j < |s| ==> s[i] < s[j]
    ensures forall i :: 0 <= i < |s| ==> 0 < s[i] < |docs| && docs[s[i]] == docs[1..][tail[i]]
    ensures forall j :: 0 < j < |docs| && InSession(docs[j], sessionId) ==> j in s
  {
  }

  /** One step of the filter when the head hit belongs to the session. */
  lemma SelectsStepKeep(docs: seq<Fragment>, sessionId: string, rest: seq<Pair>, tail: seq<nat>)
    requires docs != [] && InSession(docs[0], sessionId) && RoleKey in docs[0].metadata
    requires SelectsSession(docs[1..], sessionId, rest, tail)
    ensures SelectsSession(docs, sessionId, [Project(docs[0])] + rest, [0] + Shift(tail))
  {
    var s := Shift(tail);
    ShiftSelects(docs, sessionId, rest, tail, s);
    KeepSound(docs, sessionId, rest, tail, s);
    KeepOrdered(s);
    KeepComplete(docs, sessionId, s);
  }

  lemma KeepSound(docs: seq<Fragment>, sessionId: string, rest: seq<Pair>, tail: seq<nat>, s: seq<nat>)
    requires docs != [] && InSession(docs[0], sessionId) && RoleKey in docs[0].metadata
    requires SelectsSession(docs[1..], sessionId, rest, tail)
    requires |s| == |tail|
    requires forall i :: 0 <= i < |s| ==> 0 < s[i] < |docs| && docs[s[i]] == docs[1..][tail[i]]
    ensures var idx, r := [0] + s, [Project(docs[0])] + rest;
            forall i :: 0 <= i < |idx| ==>
              idx[i] < |docs| && InSession(docs[idx[i]], sessionId) &&
              RoleKey in docs[idx[i]].metadata && r[i] == Project(docs[idx[i]])
  {
    var idx, r := [0] + s, [Project(docs[0])] + rest;
    forall i | 0 < i < |idx|
      ensures idx[i] < |docs| && InSession(docs[idx[i]], sessionId) &&
              RoleKey in docs[idx[i]].metadata && r[i] == Project(docs[idx[i]])
    {
      assert idx[i] == s[i - 1] && r[i] == rest[i - 1];
    }
  }

  lemma KeepOrdered(s: seq<nat>)
    requires forall i, j :: 0 <= i < j < |s| ==> s[i] < s[j]
    requires forall i :: 0 <= i < |s| ==> 0 < s[i]
    ensures var idx := [0] + s; forall i, j :: 0 <= i < j < |idx| ==> idx[i] < idx[j]
  {
  }

  lemma KeepComplete(docs: seq<Fragment>, sessionId: string, s: seq<nat>)
    requires forall j :: 0 < j < |docs| && InSession(docs[j], sessionId) ==> j in s
    ensures forall j :: 0 <= j < |docs| && InSession(docs[j], sessionId) ==> j in [0] + s
  {
  }

  /** One step of the filter when the head hit belongs elsewhere. */
  lemma SelectsStepSkip(docs: seq<Fragment>, sessionId: string, rest: seq<Pair>, tail: seq<nat>)
    requires docs != [] && !InSession(docs[0], sessionId)
    requires SelectsSession(docs[1..], sessionId, rest, tail)
    ensures SelectsSession(docs, sessionId, rest, Shift(tail))
  {
  }

  /** The filter result is the order-preserving subsequence of exactly the hits
      tagged with the requested session: no hit of another session (or of none)
      is returned and no hit of the session is lost. */
  lemma {:induction false} FilterSelectsSession(docs: seq<Fragment>, sessionId: string) returns (idx: seq<nat>)
    requires FilterToSession(docs, sessionId).Ok?
    ensures SelectsSession(docs, sessionId, FilterToSession(docs, sessionId).value, idx)
  {
    if docs == [] {
      idx := [];
    } else {
      var tail := FilterSelectsSession(docs[1..], sessionId);
      var rest := FilterToSession(docs[1..], sessionId).value;
      if InSession(docs[0], sessionId) {
        SelectsStepKeep(docs, sessionId, rest, tail);
        idx := [0] + Shift(tail);
      } else {
        SelectsStepSkip(docs, sessionId, rest, tail);
        idx := Shift(tail);
      }
    }
  }

  /** Filtering a concatenation filters each part; a `KeyError` in either part
      is raised for the whole. */
  lemma {:induction false} FilterConcat(a: seq<Fragment>, b: seq<Fragment>, sessionId: string)
    ensures var ra, rb := FilterToSession(a, sessionId), FilterToSession(b, sessionId);
            FilterToSession(a + b, sessionId) ==
              if ra.Ok? && rb.Ok? then Ok(ra.value + rb.value) else Err(KeyError(RoleKey))
  {
    if a == [] {
      assert a + b == b;
      assert FilterToSession(a, sessionId) == Ok([]);
      var rb := FilterToSession(b, sessionId);
      if rb.Ok? {
        assert [] + rb.value == rb.value;
      }
    } else {
      var ab := a + b;
      assert ab[1..] == a[1..] + b;
      assert ab[0] == a[0];
      FilterConcat(a[1..], b, sessionId);
      if InSession(a[0], sessionId) && RoleKey in a[0].metadata {
        var ra', rb := FilterToSession(a[1..], sessionId), FilterToSession(b, sessionId);
        if ra'.Ok? && rb.Ok? {
          assert [Project(a[0])] + (ra'.value + rb.value) == ([Project(a[0])] + ra'.value) + rb.value;
        }
      }
    }
  }

  /** A hit without `session_id` metadata is dropped wherever it ranks. */
  lemma DroppedWhenUntagged(a: seq<Fragment>, d: Fragment, b: seq<Fragment>, sessionId: string)
    requires SessionKey !in d.metadata
    ensures FilterToSession(a + [d] + b, sessionId) == FilterToSession(a + b, sessionId)
  {
    assert FilterToSession([d], sessionId) == Ok([]) by {
      assert [d][1..] == [];
      assert FilterToSession([d][1..], sessionId) == Ok([]);
      assert !InSession(d, sessionId);
    }
    FilterConcat(a + [d], b, sessionId);
    FilterConcat(a, [d], sessionId);
    FilterConcat(a, b, sessionId);
    var ra := FilterToSession(a, sessionId);
    if ra.Ok? {
      assert ra.value + [] == ra.value;
    }
  }

  /** Storing one tagged turn adds its pair to the end of that session's filter
      result and leaves every other session's result as it was. */
  lemma FilterAppendTagged(a: seq<Fragment>, content: string, role: string, owner: string, sessionId: string)
    ensures FilterToSession(a + [Tagged(content, role, owner)], sessionId) ==
              match FilterToSession(a, sessionId)
              case Err(e) => Err(e)
              case Ok(before) => Ok(if owner == sessionId then before + [(role, content)] else before)
  {
    var d := Tagged(content, role, owner);
    assert [d][1..] == [];
    assert FilterToSession([d][1..], sessionId) == Ok([]);
    if owner == sessionId {
      assert InSession(d, sessionId) && Project(d) == (role, content);
      assert [Project(d)] + [] == [(role, content)];
      assert FilterToSession([d], sessionId) == Ok([(role, content)]);
    } else {
      assert !InSession(d, sessionId);
      assert FilterToSession([d], sessionId) == Ok([]);
    }
    FilterConcat(a, [d], sessionId);
    var ra := FilterToSession(a, sessionId);
    if ra.Ok? {
      assert ra.value + [] == ra.value;
    }
  }

  /** With no hit of the session among the hits, nothing comes back. */
  lemma {:induction false} FilterNoneInSession(docs: seq<Fragment>, sessionId: string)
    requires forall i :: 0 <= i < |docs| ==> !InSession(docs[i], sessionId)
    ensures FilterToSession(docs, sessionId) == Ok([])
  {
    if docs != [] {
      assert forall i :: 0 <= i < |docs[1..]| ==> docs[1..][i] == docs[i + 1];
      FilterNoneInSession(docs[1..], sessionId);
    }
  }

  /** At most `num_results` pairs come back, each the projection of a stored
      fragment of the requested session. */
  lemma RetrieveWithinBound(store: seq<Fragment>, search: SearchFn, sessionId: string, userInput: string, k: nat)
    requires ValidSearch(search)
    ensures var r := RetrieveSimilarContext(store, search, sessionId, userInput, k);
            r.Ok? ==> (|r.value| <= k &&
              forall i :: 0 <= i < |r.value| ==>
                exists d :: d in store && InSession(d, sessionId) && RoleKey in d.metadata && r.value[i] == Project(d))
  {
    var hits := search(store, userInput, k);
    var r := FilterToSession(hits, sessionId);
    assert r == RetrieveSimilarContext(store, search, sessionId, userInput, k);
    if r.Ok? {
      assert |r.value| <= |hits| <= k;
      var idx := FilterSelectsSession(hits, sessionId);
      forall i | 0 <= i < |r.value|
        ensures exists d :: d in store && InSession(d, sessionId) && RoleKey in d.metadata && r.value[i] == Project(d)
      {
        var d := hits[idx[i]];
        assert idx[i] < |hits| && InSession(d, sessionId) && RoleKey in d.metadata && r.value[i] == Project(d);
        assert d in store;
      }
    }
  }

  /** The post-filter limitation: when every hit belongs to other sessions the
      result is empty, however many fragments the session itself has stored. */
  lemma CrowdedOut(store: seq<Fragment>, search: SearchFn, sessionId: string, userInput: string, k: nat)
    requires exists d :: d in store && InSession(d, sessionId)
    requires forall i :: 0 <= i < |search(store, userInput, k)| ==> !InSession(search(store, userInput, k)[i], sessionId)
    ensures RetrieveSimilarContext(store, search, sessionId, userInput, k) == Ok([])
  {
    FilterNoneInSession(search(store, userInput, k), sessionId);
  }

  /** The FAISS store object: the fragments it holds in memory and the snapshot
      last written to the index directory (`None` before the first save). */
  class VectorDb {
    var fragments: seq<Fragment>
    var snapshot: Option<seq<Fragment>>

    /** Write-through: the index on disk holds what the store holds. */
    predicate Flushed()
      reads this
    {
      snapshot == Some(fragments)
    }

    /** Module start-up: load the index found on disk, or else create a store
        holding only the placeholder document and save it at once. */
    constructor Open(onDisk: Option<seq<Fragment>>)
      ensures Flushed()
      ensures fragments == if onDisk.Some? then onDisk.value else [Placeholder]
    {
      fragments := if onDisk.Some? then onDisk.value else [Placeholder];
      snapshot := onDisk;
      new;
      if onDisk.None? {
        SaveLocal();
      }
    }

    /** `add_documents`: the new documents go after the existing ones. */
    method AddDocuments(docs: seq<Fragment>)
      modifies this`fragments
      ensures fragments == old(fragments) + docs
    {
      fragments := fragments + docs;
    }

    /** `save_local`: write the whole index to disk. */
    method SaveLocal()
      modifies this`snapshot
      ensures snapshot == Some(fragments)
    {
      snapshot := Some(fragments);
    }

    /** `save_message_to_db`: store one turn tagged with its role and session,
        then flush. */
    method SaveMessage(sessionId: string, role: string, content: string)
      modifies this
      ensures fragments == old(fragments) + [Tagged(content, role, sessionId)]
      ensures Flushed()
    {
      AddDocuments([Tagged(content, role, sessionId)]);
      SaveLocal();
    }
  }
}
