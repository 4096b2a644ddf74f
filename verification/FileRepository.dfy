/** The file-backed repository: an in-memory map written through to one file, with secondary
    indexes built on first use and kept up to date in place. */
module FileRepository {
  import opened Entities

  type Field = string

  datatype Error = NotFound | Conflict | InvalidField | WriteFailed | Rejected(code: nat)

  datatype Result<+T> = Ok(value: T) | Err(error: Error)

  /** What reading a field by name gives: its string, nothing for a nil pointer, or an error. */
  datatype FieldValue = Value(text: string) | Nil | Invalid

  type Index = map<string, string>

  /** How the entities of one repository are keyed, read and encoded. */
  datatype Schema<!T(!new),
      !D> = Schema(getID: T -> string, fieldValue: (T, Field) -> FieldValue, toDoc: T -> D, toEntity: D -> Result<T>)
  {
    /** The document form loses nothing. */
    ghost predicate RoundTrips() {
      forall x: T :: toEntity(toDoc(x)) == Ok(x)
    }
  }

  // ----- the plain scan, and what an index must agree with -----

  predicate Has<T(!new), D>(sc: Schema<T, D>, items: map<string, T>, id: string, f: Field, v: string) {
    id in items && sc.fieldValue(items[id], f) == Value(v)
  }

  /** No item fails to yield the field. */
  predicate Readable<T(!new), D>(sc: Schema<T, D>, items: map<string, T>, f: Field) {
    forall id :: id in items ==> sc.fieldValue(items[id], f) != Invalid
  }

  /** No two items share a value of the field. */
  ghost predicate UniqueField<T(!new), D>(sc: Schema<T, D>, items: map<string, T>, f: Field) {
    forall id, other, v :: Has(sc, items, id, f, v) && Has(sc, items, other, f, v) ==> id == other
  }

  /** Every entry leads to an item with that value. */
  ghost predicate Sound<T(!new), D>(sc: Schema<T, D>, items: map<string, T>, f: Field, index: Index) {
    forall v :: v in index ==> Has(sc, items, index[v], f, v)
  }

  /** Every value some item has is in the index. */
  ghost predicate Complete<T(!new), D>(sc: Schema<T, D>, items: map<string, T>, f: Field, index: Index) {
    forall id, v :: Has(sc, items, id, f, v) ==> v in index
  }

  /** The index is the inverse of the field over the items. */
  ghost predicate Inverse<T(!new), D>(sc: Schema<T, D>, items: map<string, T>, f: Field, index: Index) {
    forall id, v :: (v in index && index[v] == id) <==> Has(sc, items, id, f, v)
  }

  /** An index can be the inverse of a field only if its values are unique. */
  lemma InverseNeedsUnique<T(!new), D>(sc: Schema<T, D>, items: map<string, T>, f: Field, index: Index)
    requires Inverse(sc, items, f, index)
    ensures UniqueField(sc, items, f)
  {
  }

  lemma InverseWhenUnique<T(!new), D>(sc: Schema<T, D>, items: map<string, T>, f: Field, index: Index)
    requires UniqueField(sc, items, f) && Sound(sc, items, f, index) && Complete(sc, items, f, index)
    ensures Inverse(sc, items, f, index)
  {
    forall id, v | Has(sc, items, id, f, v) ensures v in index && index[v] == id {
      assert Has(sc, items, index[v], f, v);
    }
  }

  /** FindByField of field.go: visits the items in no particular order. */
  method Scan<T(!new), D>(sc: Schema<T, D>, items: map<string, T>, f: Field, v: string) returns (r: Result<T>)
    ensures r.Ok? ==> exists id :: Has(sc, items, id, f, v) && items[id] == r.value
    ensures r == Err(NotFound) ==> forall id :: !Has(sc, items, id, f, v)
    ensures r.Err? ==> r.error == NotFound || (r.error == InvalidField && !Readable(sc, items, f))
  {
    var todo := items.Keys;
    while todo != {}
      invariant todo <= items.Keys
      invariant forall id :: id in items && id !in todo ==> !Has(sc, items, id, f, v)
      decreases todo
    {
      var id :| id in todo;
      var value := sc.fieldValue(items[id], f);
      if value.Invalid? {
        return Err(InvalidField);
      }
      if value == Value(v) {
        assert Has(sc, items, id, f, v);
        return Ok(items[id]);
      }
      todo := todo - {id};
    }
    return Err(NotFound);
  }

  // ----- keeping an index up to date -----

  /** Entries that lead to id go; the item's own value comes, unless it has none. */
  function Reindexed(index: Index, id: string, value: FieldValue): Index {
    var without := map v | v in index && index[v] != id :: index[v];
    if value.Value? then without[value.text := id] else without
  }

  lemma ReindexedSound<T(!new), D>(sc: Schema<T, D>, items: map<string, T>, f: Field, index: Index, id: string, item: T)
    requires Sound(sc, items, f, index)
    ensures Sound(sc, items[id := item], f, Reindexed(index, id, sc.fieldValue(item, f)))
  {
  }

  /** The entry another item shares with item `id`: the index has it lead to `id`, and the new item
      gives it up. */
  predicate GivesUp<T(!new), D>(sc: Schema<T, D>, f: Field, index: Index, id: string, item: T, v: string) {
    v in index && index[v] == id && sc.fieldValue(item, f) != Value(v)
  }

  /** When an in-place update loses an item, exactly: some other item has a value whose entry leads
      to the updated one, and the update gives that value up. */
  lemma ReindexedCompleteIff<T(!new), D>(sc: Schema<T, D>, items: map<string, T>, f: Field, index: Index,
                               id: string, item: T)
    requires Sound(sc, items, f, index) && Complete(sc, items, f, index)
    ensures Complete(sc, items[id := item], f, Reindexed(index, id, sc.fieldValue(item, f))) <==>
      forall other, v :: other != id && Has(sc, items, other, f, v) ==> !GivesUp(sc, f, index, id, item, v)
  {
    var after, next := items[id := item], Reindexed(index, id, sc.fieldValue(item, f));
    if Complete(sc, after, f, next) {
      forall other, v | other != id && Has(sc, items, other, f, v) ensures !GivesUp(sc, f, index, id, item, v) {
        assert Has(sc, after, other, f, v);
      }
    }
    if forall other, v :: other != id && Has(sc, items, other, f, v) ==> !GivesUp(sc, f, index, id, item, v) {
      forall other, v | Has(sc, after, other, f, v) ensures v in next {
        if other != id { assert Has(sc, items, other, f, v) && !GivesUp(sc, f, index, id, item, v); }
      }
    }
  }

  /** With unique values before, no other item's entry is lost. */
  lemma ReindexedComplete<T(!new), D>(sc: Schema<T, D>, items: map<string, T>, f: Field, index: Index, id: string,
                            item: T)
    requires Sound(sc, items, f, index) && Complete(sc, items, f, index) && UniqueField(sc, items, f)
    ensures Complete(sc, items[id := item], f, Reindexed(index, id, sc.fieldValue(item, f)))
  {
    forall other, v | other != id && Has(sc, items, other, f, v) ensures !GivesUp(sc, f, index, id, item, v) {
      assert v in index ==> Has(sc, items, index[v], f, v);
    }
    ReindexedCompleteIff(sc, items, f, index, id, item);
  }

  /** Two items share a value, the one the index names moves away, and the index misses the other
      although the scan finds it. */
  lemma SharedValueIsLost<T(!new), D>(sc: Schema<T, D>, items: map<string, T>, f: Field, index: Index,
                            other: string, v: string, item: T)
    requires Sound(sc, items, f, index) && Complete(sc, items, f, index) && Has(sc, items, other, f, v)
    requires v in index && other != index[v] && sc.fieldValue(item, f) != Value(v)
    ensures Has(sc, items[index[v] := item], other, f, v)
    ensures v !in Reindexed(index, index[v], sc.fieldValue(item, f))
    ensures !Complete(sc, items[index[v] := item], f, Reindexed(index, index[v], sc.fieldValue(item, f)))
  {
    assert GivesUp(sc, f, index, index[v], item, v);
    ReindexedCompleteIff(sc, items, f, index, index[v], item);
  }

  // ----- repository states -----

  datatype Repo<T> = Repo(items: map<string, T>, indexes: map<Field, Index>)

  ghost predicate AllSound<T(!new), D>(sc: Schema<T, D>, s: Repo<T>) {
    forall f :: f in s.indexes ==> Sound(sc, s.items, f, s.indexes[f])
  }

  ghost predicate AllComplete<T(!new), D>(sc: Schema<T, D>, s: Repo<T>) {
    forall f :: f in s.indexes ==> Complete(sc, s.items, f, s.indexes[f])
  }

  ghost predicate AllUnique<T(!new), D>(sc: Schema<T, D>, s: Repo<T>) {
    forall f :: f in s.indexes ==> UniqueField(sc, s.items, f)
  }

  /** A lookup builds the index of a field it meets for the first time. */
  ghost predicate Builds<T(!new), D>(sc: Schema<T, D>, s: Repo<T>, t: Repo<T>, f: Field) {
    && f !in s.indexes && t.items == s.items && f in t.indexes && t.indexes == s.indexes[f := t.indexes[f]]
    && Sound(sc, t.items, f, t.indexes[f]) && Complete(sc, t.items, f, t.indexes[f])
  }

  /** An item is stored and every index brought up to date in place. */
  function Stored<T(!new), D>(sc: Schema<T, D>, s: Repo<T>, item: T): Repo<T> {
    Repo(s.items[sc.getID(item) := item],
         map f | f in s.indexes :: Reindexed(s.indexes[f], sc.getID(item), sc.fieldValue(item, f)))
  }

  /** Indexes are rebuilt over new items; one that cannot be built is dropped. */
  ghost predicate Rebuilds<T(!new), D>(sc: Schema<T, D>, s: Repo<T>, t: Repo<T>) {
    && (forall f :: f in t.indexes ==>
          f in s.indexes && Sound(sc, t.items, f, t.indexes[f]) && Complete(sc, t.items, f, t.indexes[f]))
    && (forall f :: f in s.indexes && Readable(sc, t.items, f) ==> f in t.indexes)
  }

  /** One change of the repository, whichever operation makes it. */
  ghost predicate Next<T(!new), D>(sc: Schema<T, D>, s: Repo<T>, t: Repo<T>) {
    t == s || (exists f :: Builds(sc, s, t, f)) || (exists item :: t == Stored(sc, s, item)) || Rebuilds(sc, s, t)
  }

  lemma NextSound<T(!new), D>(sc: Schema<T, D>, s: Repo<T>, t: Repo<T>)
    requires AllSound(sc, s) && Next(sc, s, t)
    ensures AllSound(sc, t)
  {
    if item :| t == Stored(sc, s, item) {
      forall f | f in t.indexes ensures Sound(sc, t.items, f, t.indexes[f]) {
        ReindexedSound(sc, s.items, f, s.indexes[f], sc.getID(item), item);
      }
    }
  }

  lemma NextComplete<T(!new), D>(sc: Schema<T, D>, s: Repo<T>, t: Repo<T>)
    requires AllSound(sc, s) && AllComplete(sc, s) && AllUnique(sc, s) && Next(sc, s, t)
    ensures AllComplete(sc, t)
  {
    if item :| t == Stored(sc, s, item) {
      forall f | f in t.indexes ensures Complete(sc, t.items, f, t.indexes[f]) {
        ReindexedComplete(sc, s.items, f, s.indexes[f], sc.getID(item), item);
      }
    }
  }

  ghost predicate IsRun<T(!new), D>(sc: Schema<T, D>, states: seq<Repo<T>>) {
    && states != [] && states[0].indexes == map[]
    && (forall i :: 0 <= i < |states| - 1 ==> Next(sc, states[i], states[i + 1]))
  }

  ghost predicate AllInverse<T(!new), D>(sc: Schema<T, D>, s: Repo<T>) {
    forall f :: f in s.indexes ==> Inverse(sc, s.items, f, s.indexes[f])
  }

  lemma AllInverseIff<T(!new), D>(sc: Schema<T, D>, s: Repo<T>)
    requires AllSound(sc, s)
    ensures AllInverse(sc, s) <==> AllComplete(sc, s) && AllUnique(sc, s)
  {
    if AllInverse(sc, s) {
      forall f | f in s.indexes ensures Complete(sc, s.items, f, s.indexes[f]) && UniqueField(sc, s.items, f) {
        InverseNeedsUnique(sc, s.items, f, s.indexes[f]);
      }
    }
    if AllComplete(sc, s) && AllUnique(sc, s) {
      forall f | f in s.indexes ensures Inverse(sc, s.items, f, s.indexes[f]) {
        InverseWhenUnique(sc, s.items, f, s.indexes[f]);
      }
    }
  }

  lemma {:induction false} RunSound<T(!new), D>(sc: Schema<T, D>, states: seq<Repo<T>>, n: nat)
    requires IsRun(sc, states) && n < |states|
    ensures AllSound(sc, states[n])
  {
    if n > 0 {
      RunSound(sc, states, n - 1);
      assert Next(sc, states[n - 1], states[n - 1 + 1]);
      NextSound(sc, states[n - 1], states[n]);
    }
  }

  lemma {:induction false} RunComplete<T(!new), D>(sc: Schema<T, D>, states: seq<Repo<T>>, n: nat)
    requires IsRun(sc, states) && n < |states| && forall i :: 0 <= i <= n ==> AllUnique(sc, states[i])
    ensures AllComplete(sc, states[n])
  {
    if n > 0 {
      RunSound(sc, states, n - 1);
      RunComplete(sc, states, n - 1);
      assert Next(sc, states[n - 1], states[n - 1 + 1]);
      NextComplete(sc, states[n - 1], states[n]);
    }
  }

  /** In every run from a freshly opened repository, indexes never name a wrong item; and up to any
      point of the run every index has been exactly the inverse of its field if and only if the
      values of the indexed fields have been unique. */
  lemma IndexesRefineScan<T(!new), D>(sc: Schema<T, D>, states: seq<Repo<T>>, n: nat)
    requires IsRun(sc, states) && n < |states|
    ensures forall i :: 0 <= i <= n ==> AllSound(sc, states[i])
    ensures (forall i :: 0 <= i <= n ==> AllInverse(sc, states[i])) <==>
      (forall i :: 0 <= i <= n ==> AllUnique(sc, states[i]))
  {
    forall i | 0 <= i <= n ensures AllSound(sc, states[i]) && (AllInverse(sc, states[i]) ==> AllUnique(sc, states[i])) {
      RunSound(sc, states, i);
      AllInverseIff(sc, states[i]);
    }
    if forall i :: 0 <= i <= n ==> AllUnique(sc, states[i]) {
      forall i | 0 <= i <= n ensures AllInverse(sc, states[i]) {
        RunComplete(sc, states, i);
        AllInverseIff(sc, states[i]);
      }
    }
  }

  // ----- looking up -----

  function Answer<T(!new)>(items: map<string, T>, index: Index, v: string): Result<T> {
    if v in index && index[v] in items then Ok(items[index[v]]) else Err(NotFound)
  }

  /** What the plain scan answers when values are unique and readable. */
  ghost predicate ScanAnswers<T(!new), D>(sc: Schema<T, D>, items: map<string, T>, f: Field, v: string, r: Result<T>) {
    if r.Ok? then exists id :: Has(sc, items, id, f, v) && items[id] == r.value
    else r.error == NotFound && forall id :: !Has(sc, items, id, f, v)
  }

  /** The answer through an inverse index is the scan's, and the scan's is unique. */
  lemma LookupEqualsScan<T(!new), D>(sc: Schema<T, D>, items: map<string, T>, f: Field, index: Index, v: string,
                           r: Result<T>)
    requires Inverse(sc, items, f, index)
    ensures ScanAnswers(sc, items, f, v, r) <==> r == Answer(items, index, v)
  {
    if v in index { assert Has(sc, items, index[v], f, v); }
    forall id | Has(sc, items, id, f, v) ensures v in index && index[v] == id { }
  }

  // ----- the file -----

  datatype Fault = NoFault | OpenFails | EncodeFails | SyncFails | CloseFails | RenameFails

  /** One store file and the temporary file next to it, as the documents they decode to. */
  class FileStore<D> {
    var main: map<string, D>
    var tmp: Option<map<string, D>>

    constructor (content: map<string, D>)
      ensures main == content && tmp == None
    {
      main, tmp := content, None;
    }

    /** writeToFile: the store file changes only by the rename, so it holds either the old or the
        new documents, and a failed write leaves no temporary file of its own behind. */
    method WriteToFile(docs: map<string, D>, fault: Fault) returns (ok: bool)
      modifies this
      ensures ok <==> fault == NoFault
      ensures main == if ok then docs else old(main)
      ensures tmp == if fault == OpenFails then old(tmp) else None
    {
      if fault == OpenFails {
        return false;
      }
      tmp := Some(map[]);
      if fault == EncodeFails {
        tmp := None;
        return false;
      }
      tmp := Some(docs);
      if fault == SyncFails || fault == CloseFails || fault == RenameFails {
        tmp := None;
        return false;
      }
      main, tmp := docs, None;
      return true;
    }
  }

  function Docs<T(!new), D>(sc: Schema<T, D>, items: map<string, T>): map<string, D> {
    map id | id in items :: sc.toDoc(items[id])
  }

  /** What opening the file gives. */
  ghost predicate DecodesTo<T(!new), D>(sc: Schema<T, D>, docs: map<string, D>, items: map<string, T>) {
    docs.Keys == items.Keys && forall id :: id in docs ==> sc.toEntity(docs[id]) == Ok(items[id])
  }

  lemma DocsDecode<T(!new), D>(sc: Schema<T, D>, items: map<string, T>)
    requires sc.RoundTrips()
    ensures DecodesTo(sc, Docs(sc, items), items)
  {
  }

  /** Decodes every document of the file; one that does not decode fails the whole opening. */
  method Load<T(!new), D>(sc: Schema<T, D>, docs: map<string, D>) returns (r: Result<map<string, T>>)
    ensures r.Ok? ==> DecodesTo(sc, docs, r.value)
    ensures r.Err? <==> exists id :: id in docs && sc.toEntity(docs[id]).Err?
  {
    var items: map<string, T> := map[];
    var todo := docs.Keys;
    while todo != {}
      invariant todo <= docs.Keys && items.Keys == docs.Keys - todo
      invariant forall id :: id in items ==> sc.toEntity(docs[id]) == Ok(items[id])
      decreases todo
    {
      var id :| id in todo;
      var item := sc.toEntity(docs[id]);
      if item.Err? {
        return Err(item.error);
      }
      items := items[id := item.value];
      todo := todo - {id};
    }
    return Ok(items);
  }

  // ----- the repository -----

  class FileRepository<T(!new), D> {
    const sc: Schema<T, D>
    const store: FileStore<D>
    var items: map<string, T>
    var indexes: map<Field, Index>

    ghost function State(): Repo<T>
      reads this
    {
      Repo(items, indexes)
    }

    /** The file decodes to the items in memory, and no index names a wrong item. */
    ghost predicate Valid()
      reads this, store
    {
      sc.RoundTrips() && DecodesTo(sc, store.main, items) && AllSound(sc, State())
    }

    /** Opens the repository on what the store file decodes to. */
    constructor (sc: Schema<T, D>, store: FileStore<D>, loaded: map<string, T>)
      requires sc.RoundTrips() && DecodesTo(sc, store.main, loaded)
      ensures Valid() && this.sc == sc && this.store == store && items == loaded && indexes == map[]
    {
      this.sc := sc;
      this.store := store;
      items := loaded;
      indexes := map[];
    }

    /** The index is stored only when every item's field can be read. */
    method BuildIndex(f: Field) returns (r: Result<Index>)
      ensures r.Ok? <==> Readable(sc, items, f)
      ensures r.Ok? ==> Sound(sc, items, f, r.value) && Complete(sc, items, f, r.value)
      ensures r.Err? ==> r.error == InvalidField
    {
      var index: Index := map[];
      var todo := items.Keys;
      while todo != {}
        invariant todo <= items.Keys
        invariant Sound(sc, items, f, index)
        invariant forall id :: id in items && id !in todo ==> sc.fieldValue(items[id], f) != Invalid
        invariant forall id, v :: id !in todo && Has(sc, items, id, f, v) ==> v in index
        decreases todo
      {
        var id :| id in todo;
        var value := sc.fieldValue(items[id], f);
        if value.Invalid? {
          return Err(InvalidField);
        }
        if value.Value? {
          assert Has(sc, items, id, f, value.text);
          index := index[value.text := id];
        }
        todo := todo - {id};
      }
      return Ok(index);
    }

    /** findByFieldLocked: at most one index is built, and the answer is the index's. */
    method FindByField(f: Field, v: string) returns (r: Result<T>)
      requires Valid()
      modifies this`indexes
      ensures Valid()
      ensures Looked(old(State()), State(), f)
      ensures f in indexes ==> r == Answer(items, indexes[f], v)
      ensures f !in indexes ==> r == Err(InvalidField)
    {
      if f !in indexes {
        var built := BuildIndex(f);
        if built.Err? {
          return Err(built.error);
        }
        indexes := indexes[f := built.value];
      }
      var index := indexes[f];
      if v !in index {
        return Err(NotFound);
      }
      // The original drops an entry that leads nowhere; an index never holds one.
      if index[v] !in items {
        assert false;
      }
      return Ok(items[index[v]]);
    }

    /** Deletes the entries that lead to id, one by one, and enters the item's value. */
    method Reindex(index: Index, id: string, value: FieldValue) returns (r: Index)
      ensures r == Reindexed(index, id, value)
    {
      r := index;
      var todo := index.Keys;
      while todo != {}
        invariant todo <= index.Keys
        invariant r == map v | v in index && (v in todo || index[v] != id) :: index[v]
        decreases todo
      {
        var v :| v in todo;
        if index[v] == id {
          r := r - {v};
        }
        todo := todo - {v};
      }
      if value.Value? {
        r := r[value.text := id];
      }
    }

    method UpdateIndexesForItem(id: string, item: T)
      modifies this`indexes
      ensures indexes == map f | f in old(indexes) :: Reindexed(old(indexes)[f], id, sc.fieldValue(item, f))
    {
      var todo := indexes.Keys;
      while todo != {}
        invariant todo <= old(indexes).Keys && indexes.Keys == old(indexes).Keys
        invariant forall f :: f in todo ==> indexes[f] == old(indexes)[f]
        invariant forall f :: f in old(indexes) && f !in todo ==>
          indexes[f] == Reindexed(old(indexes)[f], id, sc.fieldValue(item, f))
        decreases todo
      {
        var f :| f in todo;
        var index := Reindex(indexes[f], id, sc.fieldValue(item, f));
        indexes := indexes[f := index];
        todo := todo - {f};
      }
    }

    /** The file first; memory follows only when the write succeeded. */
    method Save(item: T, fault: Fault) returns (r: Result<()>)
      requires Valid()
      modifies this`items, this`indexes, store
      ensures Valid()
      ensures r == if fault == NoFault then Ok(()) else Err(WriteFailed)
      ensures State() == if r.Ok? then Stored(sc, old(State()), item) else old(State())
      ensures r.Err? ==> store.main == old(store.main)
    {
      var id := sc.getID(item);
      var docs := Docs(sc, items)[id := sc.toDoc(item)];
      var ok := store.WriteToFile(docs, fault);
      if !ok {
        return Err(WriteFailed);
      }
      assert docs == Docs(sc, items[id := item]);
      DocsDecode(sc, items[id := item]);
      items := items[id := item];
      UpdateIndexesForItem(id, item);
      StoredIsNext(old(State()), item);
      return Ok(());
    }

    lemma StoredIsNext(s: Repo<T>, item: T)
      requires AllSound(sc, s)
      ensures Next(sc, s, Stored(sc, s, item)) && AllSound(sc, Stored(sc, s, item))
    {
      NextSound(sc, s, Stored(sc, s, item));
    }

    /** The state in between: the lookup's index is built if it was missing and can be. */
    ghost predicate Looked(s: Repo<T>, t: Repo<T>, f: Field) {
      if f in s.indexes || !Readable(sc, s.items, f) then t == s else Builds(sc, s, t, f)
    }

    /** Find, change and save under one lock. A callback error or a failed write leaves items and
        file as they were. */
    method UpdateByField(f: Field, v: string, update: T -> Result<T>, fault: Fault)
      returns (r: Result<()>, ghost looked: Repo<T>)
      requires Valid()
      modifies this`items, this`indexes, store
      ensures Valid() && Looked(old(State()), looked, f)
      ensures r.Err? ==> State() == looked && items == old(items) && store.main == old(store.main)
      ensures f !in looked.indexes ==> r == Err(InvalidField)
      ensures f in looked.indexes ==> (
        var found := Answer(looked.items, looked.indexes[f], v);
        r == if found.Err? then Err(NotFound)
             else if update(found.value).Err? then Err(update(found.value).error)
             else if fault != NoFault then Err(WriteFailed) else Ok(()))
      ensures r.Ok? ==> (
        && f in looked.indexes && Answer(looked.items, looked.indexes[f], v).Ok?
        && update(Answer(looked.items, looked.indexes[f], v).value).Ok?
        && State() == Stored(sc, looked, update(Answer(looked.items, looked.indexes[f], v).value).value))
    {
      var found := FindByField(f, v);
      looked := State();
      if found.Err? {
        return Err(found.error), looked;
      }
      var changed := update(found.value);
      if changed.Err? {
        return Err(changed.error), looked;
      }
      r := Save(changed.value, fault);
    }

    /** Refuses a taken value, with the check and the insert under one lock. */
    method CreateIfFieldNotExists(f: Field, v: string, item: T, fault: Fault)
      returns (r: Result<()>, ghost looked: Repo<T>)
      requires Valid()
      modifies this`items, this`indexes, store
      ensures Valid() && Looked(old(State()), looked, f)
      ensures r.Err? ==> State() == looked && items == old(items) && store.main == old(store.main)
      ensures r.Ok? ==> State() == Stored(sc, looked, item)
      ensures r == if f !in looked.indexes then Err(InvalidField)
                   else if Answer(looked.items, looked.indexes[f], v).Ok? then Err(Conflict)
                   else if fault != NoFault then Err(WriteFailed) else Ok(())
    {
      var found := FindByField(f, v);
      looked := State();
      if found.Ok? {
        return Err(Conflict), looked;
      }
      if found.error != NotFound {
        return Err(found.error), looked;
      }
      r := Save(item, fault);
    }

    method RebuildIndexes()
      modifies this`indexes
      ensures Rebuilds(sc, Repo(items, old(indexes)), State())
    {
      var todo := indexes.Keys;
      while todo != {}
        invariant todo <= old(indexes).Keys && todo <= indexes.Keys <= old(indexes).Keys
        invariant forall f :: f in indexes && f !in todo ==>
          Sound(sc, items, f, indexes[f]) && Complete(sc, items, f, indexes[f])
        invariant forall f :: f in old(indexes) && f !in todo && Readable(sc, items, f) ==> f in indexes
        decreases todo
      {
        var f :| f in todo;
        var built := BuildIndex(f);
        if built.Err? {
          indexes := indexes - {f};
        } else {
          indexes := indexes[f := built.value];
        }
        todo := todo - {f};
      }
    }

    /** Applies the callback to a copy of every item. An error midway, or a failed write, leaves
        everything as it was; nothing is written when no item reports a change. */
    method UpdateAll(update: T -> Result<(bool, T)>, fault: Fault) returns (r: Result<()>)
      requires Valid()
      modifies this`items, this`indexes, store
      ensures Valid()
      ensures r.Err? ==> State() == old(State()) && store.main == old(store.main)
      ensures r.Ok? ==> items == Updated(old(items), update)
      ensures r.Ok? ==> items.Keys == old(items).Keys && forall id :: id in old(items) ==> (
        && update(old(items)[id]).Ok?
        && items[id] == if update(old(items)[id]).value.0 then update(old(items)[id]).value.1 else old(items)[id])
      ensures r.Ok? ==> State() == old(State()) || Rebuilds(sc, old(State()), State())
      ensures r.Ok? <==>
        && (forall id :: id in old(items) ==> update(old(items)[id]).Ok?)
        && (fault == NoFault || forall id :: id in old(items) ==> !Changes(old(items)[id], update))
    {
      var next: map<string, T> := map[];
      var anyChanged := false;
      var todo := items.Keys;
      while todo != {}
        invariant todo <= items.Keys && next.Keys == items.Keys - todo
        invariant forall id :: id in next ==> update(items[id]).Ok? && next[id] == After(items[id], update)
        invariant !anyChanged <==> forall id :: id in next ==> !Changes(items[id], update)
        decreases todo
      {
        var id :| id in todo;
        var changed := update(items[id]);
        if changed.Err? {
          return Err(changed.error);
        }
        if changed.value.0 {
          anyChanged := true;
        }
        next := next[id := After(items[id], update)];
        todo := todo - {id};
      }
      assert next == Updated(items, update);
      if !anyChanged {
        assert next == items;
        return Ok(());
      }
      var ok := store.WriteToFile(Docs(sc, next), fault);
      if !ok {
        return Err(WriteFailed);
      }
      DocsDecode(sc, next);
      items := next;
      RebuildIndexes();
      return Ok(());
    }
  }

  predicate Changes<T(!new)>(item: T, update: T -> Result<(bool, T)>) {
    var r := update(item);
    r.Ok? && r.value.0
  }

  /** The item after a callback that reports whether it changed it. */
  function After<T(!new)>(item: T, update: T -> Result<(bool, T)>): T {
    if Changes(item, update) then update(item).value.1 else item
  }

  function Updated<T(!new)>(items: map<string, T>, update: T -> Result<(bool, T)>): map<string, T> {
    map id | id in items :: After(items[id], update)
  }
}
