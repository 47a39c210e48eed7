/** The raw request cache: a dictionary from record id to raw record, written
    by every summary batch and read by the detail lookup. */
module Cache {
  import opened Records
  import opened Processors

  /** The cache after writing the records of `rs` in order, each under its own
      id; a later record overwrites an earlier one with the same id. */
  function Stored(cache: map<Id, RawRequest>, rs: seq<RawRequest>): map<Id, RawRequest>
    decreases |rs|
  {
    if rs == [] then cache else Stored(cache[rs[0].id := rs[0]], rs[1..])
  }

  /** Writing two batches one after the other is writing their concatenation. */
  lemma {:induction false} StoredAppend(cache: map<Id, RawRequest>, a: seq<RawRequest>, b: seq<RawRequest>)
    ensures Stored(cache, a + b) == Stored(Stored(cache, a), b)
    decreases |a|
  {
    if a == [] {
      assert a + b == b;
    } else {
      assert (a + b)[0] == a[0];
      assert (a + b)[1..] == a[1..] + b;
      StoredAppend(cache[a[0].id := a[0]], a[1..], b);
    }
  }

  /** An id that no record of the batch carries keeps its entry, or its absence. */
  lemma {:induction false} StoredUntouched(cache: map<Id, RawRequest>, rs: seq<RawRequest>, id: Id)
    requires forall k :: 0 <= k < |rs| ==> rs[k].id != id
    ensures id in Stored(cache, rs) <==> id in cache
    ensures id in cache ==> Stored(cache, rs)[id] == cache[id]
    decreases |rs|
  {
    if rs != [] {
      assert forall k :: 0 <= k < |rs[1..]| ==> rs[1..][k] == rs[k + 1];
      StoredUntouched(cache[rs[0].id := rs[0]], rs[1..], id);
    }
  }

  /** The last record of the batch with a given id is the one stored under it. */
  lemma {:induction false} StoredLatest(cache: map<Id, RawRequest>, rs: seq<RawRequest>, j: nat)
    requires j < |rs|
    requires forall k :: j < k < |rs| ==> rs[k].id != rs[j].id
    ensures rs[j].id in Stored(cache, rs) && Stored(cache, rs)[rs[j].id] == rs[j]
    decreases |rs|
  {
    assert forall k :: 0 <= k < |rs[1..]| ==> rs[1..][k] == rs[k + 1];
    if j == 0 {
      StoredUntouched(cache[rs[0].id := rs[0]], rs[1..], rs[0].id);
    } else {
      StoredLatest(cache[rs[0].id := rs[0]], rs[1..], j - 1);
    }
  }

  /** The ids present after a batch are the ids present before and those of the batch. */
  lemma {:induction false} StoredKeys(cache: map<Id, RawRequest>, rs: seq<RawRequest>)
    ensures Stored(cache, rs).Keys == cache.Keys + (set k | 0 <= k < |rs| :: rs[k].id)
    decreases |rs|
  {
    if rs != [] {
      StoredKeys(cache[rs[0].id := rs[0]], rs[1..]);
      var tail := set k | 0 <= k < |rs[1..]| :: rs[1..][k].id;
      var all := set k | 0 <= k < |rs| :: rs[k].id;
      assert all == {rs[0].id} + tail by {
        forall x | x in all ensures x in {rs[0].id} + tail {
          var k :| 0 <= k < |rs| && rs[k].id == x;
          if k > 0 {
            assert rs[1..][k - 1].id == x;
          }
        }
        forall x | x in tail ensures x in all {
          var k :| 0 <= k < |rs[1..]| && rs[1..][k].id == x;
          assert rs[k + 1].id == x;
        }
      }
    }
  }

  /** If every entry is stored under its own id, that stays so after a batch. */
  lemma {:induction false} StoredOwnIds(cache: map<Id, RawRequest>, rs: seq<RawRequest>)
    requires forall id :: id in cache ==> cache[id].id == id
    ensures forall id :: id in Stored(cache, rs) ==> Stored(cache, rs)[id].id == id
    decreases |rs|
  {
    if rs != [] {
      StoredOwnIds(cache[rs[0].id := rs[0]], rs[1..]);
    }
  }

  /** The detail lookup: messages.detail of the cached record, or UnknownDetail. */
  function Lookup(cache: map<Id, RawRequest>, id: Id): (r: Result<seq<Message>>)
    ensures r.Ok? <==> id in cache
    ensures r.Ok? ==> r.value == cache[id].messages
    ensures r.Err? ==> r.error == UnknownDetail(id)
  {
    if id in cache then Ok(MessagesDetail(cache[id])) else Err(UnknownDetail(id))
  }

  /** Record j is the last record of `rs` that carries `id`. */
  predicate IsLatest(rs: seq<RawRequest>, j: int, id: Id) {
    0 <= j < |rs| && rs[j].id == id && forall k :: j < k < |rs| ==> rs[k].id != id
  }

  /** No record of `rs` carries `id`. */
  predicate NoneCarries(rs: seq<RawRequest>, id: Id) {
    forall k :: 0 <= k < |rs| ==> rs[k].id != id
  }

  /** After a batch is cached, looking up the id of any record of it yields the
      messages of the last record with that id; an id neither cached before nor
      in the batch is an UnknownDetail error. */
  lemma LookupAfterStore(cache: map<Id, RawRequest>, rs: seq<RawRequest>, id: Id)
    ensures forall j :: IsLatest(rs, j, id) ==> Lookup(Stored(cache, rs), id) == Ok(rs[j].messages)
    ensures id !in cache && NoneCarries(rs, id) ==> Lookup(Stored(cache, rs), id) == Err(UnknownDetail(id))
  {
    forall j | IsLatest(rs, j, id)
      ensures Lookup(Stored(cache, rs), id) == Ok(rs[j].messages)
    {
      StoredLatest(cache, rs, j);
    }
    if NoneCarries(rs, id) {
      StoredUntouched(cache, rs, id);
    }
  }

  // ---------------------------------------------------------------------------
  // The lookup as written, on a plain JavaScript object
  // ---------------------------------------------------------------------------

  /** Names every plain JavaScript object inherits from Object.prototype. */
  const InheritedNames: set<string> := {
    "constructor", "hasOwnProperty", "isPrototypeOf", "propertyIsEnumerable",
    "toLocaleString", "toString", "valueOf", "__proto__",
    "__defineGetter__", "__defineSetter__", "__lookupGetter__", "__lookupSetter__"
  }

  /** What indexing the cache object by a name yields: an own record, a member
      inherited from Object.prototype (a truthy function or object), or undefined. */
  datatype Slot = OwnRecord(record: RawRequest) | InheritedMember | Undefined

  function PlainObjectGet(cache: map<Id, RawRequest>, id: Id): (s: Slot)
    ensures s.OwnRecord? <==> id in cache
    ensures s.InheritedMember? <==> id !in cache && id in InheritedNames
  {
    if id in cache then OwnRecord(cache[id])
    else if id in InheritedNames then InheritedMember
    else Undefined
  }

  /** The lookup as the source writes it: it throws only on a falsy slot, so an
      inherited member passes the guard and its `messages`, undefined (None
      here), is what gets published. */
  function LookupAsWritten(cache: map<Id, RawRequest>, id: Id): (r: Result<Option<seq<Message>>>)
    ensures r.Err? <==> id !in cache && id !in InheritedNames
  {
    match PlainObjectGet(cache, id)
    case OwnRecord(raw) => Ok(Some(raw.messages))
    case InheritedMember => Ok(None)
    case Undefined => Err(UnknownDetail(id))
  }

  /** The discrepancy: for an inherited name that no summary produced, the
      lookup as written publishes undefined instead of failing, while Lookup
      reports UnknownDetail; on every other id the two agree. */
  lemma LookupAsWrittenDiffers(cache: map<Id, RawRequest>, id: Id)
    ensures id !in cache && id in InheritedNames ==>
              LookupAsWritten(cache, id) == Ok(None) && Lookup(cache, id) == Err(UnknownDetail(id))
    ensures id in cache || id !in InheritedNames ==>
              match Lookup(cache, id)
              case Ok(ms) => LookupAsWritten(cache, id) == Ok(Some(ms))
              case Err(e) => LookupAsWritten(cache, id) == Err(e)
  {
  }

  /** A concrete case: a request for the detail of "constructor" on an empty cache. */
  lemma ConstructorIdIsFound()
    ensures LookupAsWritten(map[], "constructor") == Ok(None)
    ensures Lookup(map[], "constructor") == Err(UnknownDetail("constructor"))
  {
  }
}
