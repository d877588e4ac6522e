/** The replay cache: a bounded first-in first-out map from a digest of model,
    instructions and visible history to a replay record, and the longest stored
    prefix search it speeds up. */
module ReplayCache {
  import opened Base

  /** Opaque conversation items and upstream messages. */
  datatype Item = Item(id: nat)
  datatype Message = Message(id: nat)

  /** What the digest is taken of. */
  datatype Identity = Identity(model: string, instructions: string, history: seq<Item>)

  datatype Record = Record(identity: Identity, internalMessages: seq<Message>)

  // ---- the simple form: a list of records, oldest first -------------------------

  /** Where the record with this identity stands, or the length. */
  function Position(list: seq<Record>, id: Identity): (p: nat)
    ensures p <= |list|
    ensures p < |list| ==> list[p].identity == id
    ensures forall i :: 0 <= i < p ==> list[i].identity != id
  {
    if list == [] || list[0].identity == id then 0
    else
      var q := Position(list[1..], id);
      assert forall i :: 1 <= i < |list| ==> list[i] == list[1..][i - 1];
      q + 1
  }

  function Trimmed<T>(list: seq<T>, max: nat): seq<T> {
    if 0 < max <= |list| then list[1..] else list
  }

  /** A known identity is rewritten where it stands; a new one goes last, after the
      oldest left if the list was full. */
  function Inserted(list: seq<Record>, r: Record, max: nat): seq<Record> {
    var p := Position(list, r.identity);
    if p < |list| then list[p := r] else Trimmed(list, max) + [r]
  }

  ghost predicate Matches(list: seq<Record>, i: int, model: string, instructions: string, input: seq<Item>) {
    0 <= i < |list| && list[i].identity.model == model && list[i].identity.instructions == instructions
    && list[i].identity.history <= input
  }

  /** The answer of the simple search: nothing matches, or the answer is the one
      match no other match is as long as. */
  ghost predicate IsLongestMatch(
      list: seq<Record>, model: string, instructions: string, input: seq<Item>, answer: Option<Record>) {
    match answer
    case None => forall i :: !Matches(list, i, model, instructions, input)
    case Some(r) =>
      exists i :: Matches(list, i, model, instructions, input) && list[i] == r
               && forall j :: Matches(list, j, model, instructions, input) && j != i ==>
                    |list[j].identity.history| < |r.identity.history|
  }

  // ---- the program's form --------------------------------------------------------

  ghost predicate Injective<Key(!new)>(hash: Identity -> Key) {
    forall a, b :: hash(a) == hash(b) ==> a == b
  }

  function Listed<Key>(order: seq<Key>, records: map<Key, Record>): (list: seq<Record>)
    requires forall k :: k in order ==> k in records
    ensures |list| == |order| && forall i :: 0 <= i < |order| ==> list[i] == records[order[i]]
  {
    if order == [] then [] else [records[order[0]]] + Listed(order[1..], records)
  }

  /** The map and the queue hold the same keys, once each, and every record sits
      under the digest of its identity. */
  ghost predicate Agree<Key(!new)>(hash: Identity -> Key, order: seq<Key>, records: map<Key, Record>, max: nat) {
    && NoDup(order)
    && SameSet(order, records)
    && UnderDigest(hash, records)
    && (max > 0 ==> |order| <= max)
  }

  ghost predicate SameSet<Key(!new)>(order: seq<Key>, records: map<Key, Record>) {
    forall k :: k in order <==> k in records
  }

  ghost predicate UnderDigest<Key(!new)>(hash: Identity -> Key, records: map<Key, Record>) {
    forall k :: k in records ==> hash(records[k].identity) == k
  }

  class ReplayStore<Key(==,!new)> {
    var records: map<Key, Record>
    var order: seq<Key>
    const maxEntries: nat
    const hash: Identity -> Key

    ghost predicate Valid()
      reads this
    {
      Injective(hash) && Agree(hash, order, records, maxEntries)
    }

    ghost function Contents(): (list: seq<Record>)
      reads this
      requires Valid()
    {
      Listed(order, records)
    }

    constructor (maxEntries: nat, hash: Identity -> Key)
      requires Injective(hash)
      ensures Valid() && Contents() == [] && this.maxEntries == maxEntries && this.hash == hash
    {
      this.maxEntries, this.hash := maxEntries, hash;
      records, order := map[], [];
    }

    method Insert(record: Record)
      requires Valid()
      modifies this
      ensures Valid() && Contents() == Inserted(old(Contents()), record, maxEntries)
    {
      var key := hash(record.identity);
      PositionOfKey(hash, order, records, maxEntries, record.identity);
      SameKeys(order, records);
      hide Agree, Inserted, Position, Listed;
      if key in records {
        RewriteStep(hash, order, records, maxEntries, record);
        records := records[key := record];
        return;
      }
      AdmitStep(hash, order, records, maxEntries, record);
      if maxEntries > 0 && |records| >= maxEntries && order != [] {
        var oldest := order[0];
        order := order[1..];
        records := records - {oldest};
      }
      order := order + [key];
      records := records[key := record];
    }

    /** Longest candidate first; the first hit answers. */
    method LongestPrefixMatch(model: string, instructions: string, input: seq<Item>) returns (answer: Option<Record>)
      requires Valid()
      ensures IsLongestMatch(Contents(), model, instructions, input, answer)
    {
      var len := |input| + 1;
      while len > 0
        invariant 0 <= len <= |input| + 1
        invariant forall l :: len <= l <= |input| ==> hash(Identity(model, instructions, input[..l])) !in records
      {
        len := len - 1;
        var key := hash(Identity(model, instructions, input[..len]));
        if key in records {
          HitIsLongest(hash, order, records, maxEntries, model, instructions, input, len);
          return Some(records[key]);
        }
      }
      MissIsEmpty(hash, order, records, maxEntries, model, instructions, input);
      return None;
    }

    method Len() returns (n: nat)
      requires Valid()
      ensures n == |Contents()|
    {
      SameKeys(order, records);
      return |records|;
    }
  }

  lemma {:induction false} SameKeys<Key>(order: seq<Key>, records: map<Key, Record>)
    requires NoDup(order) && forall k :: k in order <==> k in records
    ensures |records| == |order|
  {
    NoDupSize(order);
    assert records.Keys == set k | k in order;
  }

  lemma {:induction false} NoDupSize<Key>(order: seq<Key>)
    requires NoDup(order)
    ensures |set k | k in order| == |order|
  {
    if order != [] {
      NoDupSize(order[1..]);
      assert order[0] !in order[1..];
      assert (set k | k in order) == {order[0]} + set k | k in order[1..];
    }
  }

  lemma {:induction false} KeyOf<Key(!new)>(
      hash: Identity -> Key, order: seq<Key>, records: map<Key, Record>, max: nat, i: nat)
    requires Agree(hash, order, records, max) && i < |order|
    ensures order[i] in records && hash(Listed(order, records)[i].identity) == order[i]
  {
    assert order[i] in records;
  }

  /** The digest finds the record the list search finds. */
  lemma {:induction false} PositionOfKey<Key(!new)>(
      hash: Identity -> Key, order: seq<Key>, records: map<Key, Record>, max: nat, id: Identity)
    requires Injective(hash) && Agree(hash, order, records, max)
    ensures var p := Position(Listed(order, records), id);
            (hash(id) in records <==> p < |order|) && (p < |order| ==> order[p] == hash(id))
  {
    var p := Position(Listed(order, records), id);
    if p < |order| {
      KeyOf(hash, order, records, max, p);
    } else {
      forall i | 0 <= i < |order| ensures order[i] != hash(id) { KeyOf(hash, order, records, max, i); }
    }
  }

  lemma {:induction false} RewriteStep<Key(!new)>(
      hash: Identity -> Key, order: seq<Key>, records: map<Key, Record>, max: nat, r: Record)
    requires Injective(hash) && Agree(hash, order, records, max) && hash(r.identity) in records
    ensures var changed := records[hash(r.identity) := r];
            Agree(hash, order, changed, max) && Listed(order, changed) == Inserted(Listed(order, records), r, max)
  {
    PositionOfKey(hash, order, records, max, r.identity);
    var p := Position(Listed(order, records), r.identity);
    hide NoDup, SameSet, UnderDigest;
    RewriteList(order, records, p, r);
  }

  lemma {:induction false} RewriteList<Key(!new)>(order: seq<Key>, records: map<Key, Record>, p: nat, r: Record)
    requires NoDup(order) && p < |order| && forall k :: k in order ==> k in records
    ensures Listed(order, records[order[p] := r]) == Listed(order, records)[p := r]
  {
    forall i | 0 <= i < |order| && i != p ensures order[i] != order[p] {
    }
  }

  lemma {:induction false} EvictStep<Key(!new)>(
      hash: Identity -> Key, order: seq<Key>, records: map<Key, Record>, max: nat)
    requires Agree(hash, order, records, max) && order != []
    ensures Agree(hash, order[1..], records - {order[0]}, max)
    ensures Listed(order[1..], records - {order[0]}) == Listed(order, records)[1..]
  {
    var rest, left := order[1..], records - {order[0]};
    TailKeepsSet(order, records);
    FewerKeepDigest(hash, records, order[0]);
    TailIsListed(order, records);
    hide NoDup, SameSet, UnderDigest, Listed;
  }

  lemma {:induction false} TailKeepsSet<Key(!new)>(order: seq<Key>, records: map<Key, Record>)
    requires order != [] && NoDup(order) && SameSet(order, records)
    ensures NoDup(order[1..]) && SameSet(order[1..], records - {order[0]})
  {
    assert forall i :: 0 <= i < |order| - 1 ==> order[1..][i] == order[i + 1];
    assert order[0] !in order[1..];
    assert order == [order[0]] + order[1..];
  }

  lemma {:induction false} FewerKeepDigest<Key(!new)>(hash: Identity -> Key, records: map<Key, Record>, gone: Key)
    requires UnderDigest(hash, records)
    ensures UnderDigest(hash, records - {gone})
  {
  }

  lemma {:induction false} TailIsListed<Key(!new)>(order: seq<Key>, records: map<Key, Record>)
    requires order != [] && NoDup(order) && SameSet(order, records)
    ensures forall k :: k in order ==> k in records
    ensures forall k :: k in order[1..] ==> k in records - {order[0]}
    ensures Listed(order[1..], records - {order[0]}) == Listed(order, records)[1..]
  {
    TailKeepsSet(order, records);
    hide NoDup;
  }

  lemma {:induction false} AppendStep<Key(!new)>(
      hash: Identity -> Key, order: seq<Key>, records: map<Key, Record>, max: nat, r: Record)
    requires Agree(hash, order, records, max) && hash(r.identity) !in records && (max > 0 ==> |order| < max)
    ensures Agree(hash, order + [hash(r.identity)], records[hash(r.identity) := r], max)
    ensures Listed(order + [hash(r.identity)], records[hash(r.identity) := r]) == Listed(order, records) + [r]
  {
    var key := hash(r.identity);
    assert key !in order;
    forall i | 0 <= i < |order| ensures order[i] in records && order[i] != key {
      assert order[i] in order;
    }
    hide NoDup, SameSet, UnderDigest;
    assert Listed(order + [key], records[key := r]) == Listed(order, records) + [r];
  }

  lemma {:induction false} AdmitStep<Key(!new)>(
      hash: Identity -> Key, order: seq<Key>, records: map<Key, Record>, max: nat, r: Record)
    requires Injective(hash) && Agree(hash, order, records, max) && hash(r.identity) !in records
    ensures var full := max > 0 && |order| >= max && order != [];
            var rest, left := if full then order[1..] else order, if full then records - {order[0]} else records;
            && Agree(hash, rest + [hash(r.identity)], left[hash(r.identity) := r], max)
            && Listed(rest + [hash(r.identity)], left[hash(r.identity) := r])
                == Inserted(Listed(order, records), r, max)
  {
    PositionOfKey(hash, order, records, max, r.identity);
    assert max > 0 ==> |order| <= max;
    assert Inserted(Listed(order, records), r, max) == Trimmed(Listed(order, records), max) + [r];
    if 0 < max <= |order| {
      EvictStep(hash, order, records, max);
      hide Agree;
      AppendStep(hash, order[1..], records - {order[0]}, max, r);
    } else {
      hide Agree;
      AppendStep(hash, order, records, max, r);
    }
  }

  lemma {:induction false} MatchHasKey<Key(!new)>(
      hash: Identity -> Key, order: seq<Key>, records: map<Key, Record>, max: nat, model: string, instructions: string,
      input: seq<Item>, i: int)
    requires Injective(hash) && Agree(hash, order, records, max)
    requires Matches(Listed(order, records), i, model, instructions, input)
    ensures var l := |Listed(order, records)[i].identity.history|;
            l <= |input| && order[i] == hash(Identity(model, instructions, input[..l]))
  {
    var r := Listed(order, records)[i];
    assert order[i] in records;
    assert r.identity == Identity(model, instructions, input[..|r.identity.history|]);
  }

  lemma {:induction false} HitIsLongest<Key(!new)>(
      hash: Identity -> Key, order: seq<Key>, records: map<Key, Record>, max: nat, model: string, instructions: string,
      input: seq<Item>, len: nat)
    requires Injective(hash) && Agree(hash, order, records, max)
    requires len <= |input| && hash(Identity(model, instructions, input[..len])) in records
    requires forall l :: len < l <= |input| ==> hash(Identity(model, instructions, input[..l])) !in records
    ensures IsLongestMatch(Listed(order, records), model, instructions, input,
                           Some(records[hash(Identity(model, instructions, input[..len]))]))
  {
    var list, key := Listed(order, records), hash(Identity(model, instructions, input[..len]));
    var i :| 0 <= i < |order| && order[i] == key;
    KeyOf(hash, order, records, max, i);
    assert list[i].identity == Identity(model, instructions, input[..len]);
    assert Matches(list, i, model, instructions, input);
    forall j | Matches(list, j, model, instructions, input) && j != i
      ensures |list[j].identity.history| < len
    {
      OtherMatchIsShorter(hash, order, records, max, model, instructions, input, len, i, j);
    }
  }

  lemma {:induction false} OtherMatchIsShorter<Key(!new)>(
      hash: Identity -> Key, order: seq<Key>, records: map<Key, Record>, max: nat, model: string, instructions: string,
      input: seq<Item>, len: nat, i: nat, j: nat)
    requires Injective(hash) && Agree(hash, order, records, max) && i < |order| && i != j && len <= |input|
    requires order[i] == hash(Identity(model, instructions, input[..len]))
    requires forall l :: len < l <= |input| ==> hash(Identity(model, instructions, input[..l])) !in records
    requires Matches(Listed(order, records), j, model, instructions, input)
    ensures |Listed(order, records)[j].identity.history| < len
  {
    MatchHasKey(hash, order, records, max, model, instructions, input, j);
    KeyOf(hash, order, records, max, j);
    assert order[i] != order[j];
  }

  lemma {:induction false} MissIsEmpty<Key(!new)>(
      hash: Identity -> Key, order: seq<Key>, records: map<Key, Record>, max: nat, model: string, instructions: string,
      input: seq<Item>)
    requires Injective(hash) && Agree(hash, order, records, max)
    requires forall l :: 0 <= l <= |input| ==> hash(Identity(model, instructions, input[..l])) !in records
    ensures IsLongestMatch(Listed(order, records), model, instructions, input, None)
  {
    forall i | Matches(Listed(order, records), i, model, instructions, input) ensures false {
      MatchHasKey(hash, order, records, max, model, instructions, input, i);
    }
  }

  // ---- over whole runs ------------------------------------------------------------

  /** The list after inserting `run` into an empty cache. */
  function Retained(run: seq<Record>, max: nat): seq<Record> {
    if run == [] then [] else Inserted(Retained(run[..|run| - 1], max), run[|run| - 1], max)
  }

  /** The last record of the run with this identity. */
  function Latest(run: seq<Record>, id: Identity): Option<Record> {
    if run == [] then None
    else if run[|run| - 1].identity == id then Some(run[|run| - 1])
    else Latest(run[..|run| - 1], id)
  }

  function Identities(list: seq<Record>): (ids: seq<Identity>)
    ensures |ids| == |list| && forall i :: 0 <= i < |list| ==> ids[i] == list[i].identity
  {
    if list == [] then [] else [list[0].identity] + Identities(list[1..])
  }

  /** The newest `max` admissions, or all of them when there is no bound. */
  function Window<T>(admitted: seq<T>, max: nat): seq<T> {
    if 0 < max < |admitted| then admitted[|admitted| - max..] else admitted
  }

  /** The identities in the order they were let in; inserting one that is still in
      the window lets nobody in. */
  function Admitted(run: seq<Record>, max: nat): seq<Identity> {
    if run == [] then []
    else
      var before, id := Admitted(run[..|run| - 1], max), run[|run| - 1].identity;
      if id in Window(before, max) then before else before + [id]
  }

  /** Over any run of inserts the cache is the sliding window of admissions: bounded,
      free of duplicates, in order of admission whatever was rewritten since, and
      holding for each identity the last record inserted for it. */
  lemma {:induction false} CacheIsWindow(run: seq<Record>, max: nat)
    ensures Identities(Retained(run, max)) == Window(Admitted(run, max), max)
    ensures NoDup(Identities(Retained(run, max)))
    ensures max > 0 ==> |Retained(run, max)| <= max
    ensures AllLatest(run, Retained(run, max))
  {
    if run != [] {
      var front, last := run[..|run| - 1], run[|run| - 1];
      CacheIsWindow(front, max);
      var list := Retained(front, max);
      var p := Position(list, last.identity);
      hide Position, Identities, Latest, NoDup, Window;
      if p < |list| {
        assert Identities(list)[p] == last.identity;
        assert Identities(list[p := last]) == Identities(list);
        RewriteKeepsLatest(run, list, p);
      } else {
        NewcomerIsNew(list, last.identity);
        NewcomerSlides(list, last, Admitted(front, max), max);
        NewcomerKeepsLatest(run, list, max);
      }
    }
  }

  ghost predicate AllLatest(run: seq<Record>, list: seq<Record>) {
    forall r :: r in list ==> Latest(run, r.identity) == Some(r)
  }

  lemma {:induction false} RewriteKeepsLatest(run: seq<Record>, list: seq<Record>, p: nat)
    requires run != [] && AllLatest(run[..|run| - 1], list) && NoDup(Identities(list))
    requires p < |list| && list[p].identity == run[|run| - 1].identity
    ensures AllLatest(run, list[p := run[|run| - 1]])
  {
    var last := run[|run| - 1];
    hide Identities, NoDup;
    forall r: Record | r in list[p := last] ensures Latest(run, r.identity) == Some(r) {
      var i :| 0 <= i < |list| && list[p := last][i] == r;
      if i != p { RewrittenDiffers(list, last, p, i); }
    }
  }

  lemma {:induction false} NewcomerKeepsLatest(run: seq<Record>, list: seq<Record>, max: nat)
    requires run != [] && AllLatest(run[..|run| - 1], list)
    requires forall r :: r in list ==> r.identity != run[|run| - 1].identity
    ensures AllLatest(run, Trimmed(list, max) + [run[|run| - 1]])
  {
    forall r | r in Trimmed(list, max) + [run[|run| - 1]] ensures Latest(run, r.identity) == Some(r) {
      if r != run[|run| - 1] { assert r in list; }
    }
  }

  lemma {:induction false} RewrittenDiffers(list: seq<Record>, last: Record, p: nat, i: nat)
    requires NoDup(Identities(list)) && p < |list| && i < |list| && i != p && list[p].identity == last.identity
    ensures list[i].identity != last.identity && list[i] in list
  {
    assert Identities(list)[i] != Identities(list)[p];
  }

  lemma {:induction false} NewcomerIsNew(list: seq<Record>, id: Identity)
    requires Position(list, id) == |list|
    ensures id !in Identities(list) && forall r :: r in list ==> r.identity != id
  {
  }

  lemma {:induction false} NewcomerSlides(list: seq<Record>, last: Record, admitted: seq<Identity>, max: nat)
    requires Identities(list) == Window(admitted, max) && NoDup(Identities(list)) && last.identity !in Identities(list)
    ensures Identities(Trimmed(list, max) + [last]) == Window(admitted + [last.identity], max)
    ensures NoDup(Identities(Trimmed(list, max) + [last]))
    ensures max > 0 ==> |Trimmed(list, max) + [last]| <= max
  {
    var ids := Identities(list);
    assert max > 0 ==> |ids| <= max;
    hide Identities, NoDup, Window;
    WindowSlides(admitted, last.identity, max);
    TrimmedNoDup(ids, max);
  }

  lemma {:induction false} TrimmedNoDup<T>(s: seq<T>, max: nat)
    requires NoDup(s)
    ensures NoDup(Trimmed(s, max)) && forall x :: x in Trimmed(s, max) ==> x in s
  {
  }

  lemma {:induction false} WindowSlides<T>(admitted: seq<T>, x: T, max: nat)
    ensures Window(admitted + [x], max) == Trimmed(Window(admitted, max), max) + [x]
  {
  }

  /** Still admitted, for this model and these instructions, and a prefix of the input. */
  ghost predicate Candidate(
      run: seq<Record>, max: nat, model: string, instructions: string, input: seq<Item>, id: Identity) {
    id in Window(Admitted(run, max), max) && id.model == model && id.instructions == instructions && id.history <= input
  }

  /** So what a search after any run returns is the record last inserted for the
      longest retained history that is a prefix of the input. */
  lemma {:induction false} SearchAfterRun(
      run: seq<Record>, max: nat, model: string, instructions: string, input: seq<Item>, answer: Option<Record>)
    requires IsLongestMatch(Retained(run, max), model, instructions, input, answer)
    ensures answer.None? ==>
              forall id :: !Candidate(run, max, model, instructions, input, id)
    ensures answer.Some? ==>
              && Candidate(run, max, model, instructions, input, answer.value.identity)
              && Latest(run, answer.value.identity) == answer
              && forall id :: Candidate(run, max, model, instructions, input, id) ==>
                  |id.history| <= |answer.value.identity.history|
  {
    CacheIsWindow(run, max);
    var list := Retained(run, max);
    assert forall i :: 0 <= i < |list| ==> Identities(list)[i] == list[i].identity;
    forall id | Candidate(run, max, model, instructions, input, id)
      ensures answer.Some? && |id.history| <= |answer.value.identity.history|
    {
      var j :| 0 <= j < |list| && Identities(list)[j] == id;
      assert Matches(list, j, model, instructions, input);
    }
    if answer.Some? {
      var i :| Matches(list, i, model, instructions, input) && list[i] == answer.value;
      assert list[i] in list && Identities(list)[i] in Identities(list);
    }
  }
}
